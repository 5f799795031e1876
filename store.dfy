/** The relational store the ORM maintains for the tickets application and
    the accounts' team link: one map per table from primary key to row,
    auto-increment counters, and the latest instant the injected clock gave.
    Inserts validate first and then insert or reject; deletes carry out the
    declared CASCADE and SET_NULL actions. */
module Store {

  import opened Optional
  import opened Choices
  import opened Records
  import Ordering

  /** Every key in use was issued by the table's counter, which starts at 1. */
  ghost predicate KeysBelow<T>(m: map<nat, T>, next: nat)
  {
    0 < next && forall k :: k in m ==> 0 < k < next
  }

  ghost predicate UserLinksResolve(users: map<UserId, User>, teams: map<TeamId, Team>)
  {
    forall u :: u in users && users[u].team.Some? ==> users[u].team.value in teams
  }

  ghost predicate TicketLinksResolve(tickets: map<TicketId, Ticket>, users: map<UserId, User>,
                                     teams: map<TeamId, Team>, categories: map<CategoryId, Category>)
  {
    forall k :: k in tickets ==>
      && tickets[k].author in users
      && (tickets[k].category.Some? ==> tickets[k].category.value in categories)
      && (tickets[k].assignedTeam.Some? ==> tickets[k].assignedTeam.value in teams)
      && (tickets[k].assignedTechnician.Some? ==> tickets[k].assignedTechnician.value in users)
  }

  ghost predicate CommentLinksResolve(comments: map<CommentId, Comment>, tickets: map<TicketId, Ticket>,
                                      users: map<UserId, User>)
  {
    forall c :: c in comments ==>
      && comments[c].ticket in tickets
      && (comments[c].author.Some? ==> comments[c].author.value in users)
  }

  /** Names are non-blank, at most 30 characters, and unique in the table
      (the teams table and the categories table alike). */
  ghost predicate NamesValid(table: map<nat, Named>)
  {
    && (forall k :: k in table ==> table[k].name != "" && |table[k].name| <= NAME_MAX_LENGTH)
    && (forall k, l :: k in table && l in table && table[k].name == table[l].name ==> k == l)
  }

  /** A ticket row as creation leaves it: a title of 10 to 50 characters,
      a non-blank description and an image (if any) that the validators
      accept, and updated no earlier than created and no later than the
      clock. */
  ghost predicate TicketRowOk(t: Ticket, v: Validators, clock: Instant)
  {
    && TitleInRange(t.title)
    && t.description != "" && v.descriptionOk(t.description)
    && (t.image.None? || v.imageOk(t.image.value))
    && t.createdOn <= t.updatedOn <= clock
  }

  ghost predicate TicketRowsValid(tickets: map<TicketId, Ticket>, v: Validators, clock: Instant)
  {
    forall k :: k in tickets ==> TicketRowOk(tickets[k], v, clock)
  }

  /** A comment row as creation leaves it: a non-blank body the validator
      accepts, created no later than the clock. */
  ghost predicate CommentRowsValid(comments: map<CommentId, Comment>, v: Validators, clock: Instant)
  {
    forall c :: c in comments ==>
      comments[c].body != "" && v.bodyOk(comments[c].body) && comments[c].createdOn <= clock
  }

  /** The whole store as one value: the tables, their key counters and the
      clock. */
  datatype Tables = Tables(
    users: map<UserId, User>,
    teams: map<TeamId, Team>,
    categories: map<CategoryId, Category>,
    tickets: map<TicketId, Ticket>,
    comments: map<CommentId, Comment>,
    nextUser: nat, nextTeam: nat, nextCategory: nat, nextTicket: nat, nextComment: nat,
    clock: Instant,
    validators: Validators)

  /** The invariant the store keeps between operations. */
  ghost predicate Consistent(db: Tables)
  {
    && KeysBelow(db.users, db.nextUser) && KeysBelow(db.teams, db.nextTeam)
    && KeysBelow(db.categories, db.nextCategory)
    && KeysBelow(db.tickets, db.nextTicket) && KeysBelow(db.comments, db.nextComment)
    && UserLinksResolve(db.users, db.teams)
    && TicketLinksResolve(db.tickets, db.users, db.teams, db.categories)
    && CommentLinksResolve(db.comments, db.tickets, db.users)
    && NamesValid(db.teams) && NamesValid(db.categories)
    && TicketRowsValid(db.tickets, db.validators, db.clock)
    && CommentRowsValid(db.comments, db.validators, db.clock)
  }

  /** The names already taken in a team or category table. */
  function Names(table: map<nat, Named>): (names: set<string>)
    ensures forall k :: k in table ==> table[k].name in names
    ensures forall n :: n in names ==> exists k :: k in table && table[k].name == n
  {
    set k | k in table :: table[k].name
  }

  /** SET_NULL of `assigned_team` over the tickets table. */
  function ClearTeam(tickets: map<TicketId, Ticket>, team: TeamId): (r: map<TicketId, Ticket>)
    ensures r.Keys == tickets.Keys
    ensures forall k :: k in r ==> r[k] == NullTeam(tickets[k], team)
  {
    map k | k in tickets :: NullTeam(tickets[k], team)
  }

  /** SET_NULL of the account's `team` over the users table. */
  function ClearUserTeam(users: map<UserId, User>, team: TeamId): (r: map<UserId, User>)
    ensures r.Keys == users.Keys
    ensures forall u :: u in r ==> r[u] == NullUserTeam(users[u], team)
  {
    map u | u in users :: NullUserTeam(users[u], team)
  }

  /** SET_NULL of `category` over the tickets table. */
  function ClearCategory(tickets: map<TicketId, Ticket>, category: CategoryId): (r: map<TicketId, Ticket>)
    ensures r.Keys == tickets.Keys
    ensures forall k :: k in r ==> r[k] == NullCategory(tickets[k], category)
  {
    map k | k in tickets :: NullCategory(tickets[k], category)
  }

  /** The comments a ticket's CASCADE leaves. */
  function CommentsNotOn(comments: map<CommentId, Comment>, ticket: TicketId): (r: map<CommentId, Comment>)
    ensures r.Keys == set c | c in comments && comments[c].ticket != ticket
    ensures forall c :: c in r ==> r[c] == comments[c]
  {
    map c | c in comments && comments[c].ticket != ticket :: comments[c]
  }

  /** The tickets a user's CASCADE leaves, with SET_NULL of
      `assigned_technician`. */
  function TicketsNotBy(tickets: map<TicketId, Ticket>, user: UserId): (r: map<TicketId, Ticket>)
    ensures r.Keys == set k | k in tickets && tickets[k].author != user
    ensures forall k :: k in r ==> r[k] == NullTechnician(tickets[k], user)
  {
    map k | k in tickets && tickets[k].author != user :: NullTechnician(tickets[k], user)
  }

  /** The comments left on the surviving tickets, with SET_NULL of the
      comment author. */
  function CommentsOnAfterUserDelete(comments: map<CommentId, Comment>, survivors: map<TicketId, Ticket>,
                                     user: UserId): (r: map<CommentId, Comment>)
    ensures r.Keys == set c | c in comments && comments[c].ticket in survivors
    ensures forall c :: c in r ==> r[c] == NullAuthor(comments[c], user)
  {
    map c | c in comments && comments[c].ticket in survivors :: NullAuthor(comments[c], user)
  }

  lemma ClearTeamKeepsLinks(tickets: map<TicketId, Ticket>, users: map<UserId, User>,
                            teams: map<TeamId, Team>, categories: map<CategoryId, Category>, team: TeamId)
    requires TicketLinksResolve(tickets, users, teams, categories) && UserLinksResolve(users, teams)
    ensures TicketLinksResolve(ClearTeam(tickets, team), ClearUserTeam(users, team), teams - {team}, categories)
    ensures UserLinksResolve(ClearUserTeam(users, team), teams - {team})
  {
  }

  lemma ClearTeamKeepsComments(comments: map<CommentId, Comment>, tickets: map<TicketId, Ticket>,
                               users: map<UserId, User>, team: TeamId)
    requires CommentLinksResolve(comments, tickets, users)
    ensures CommentLinksResolve(comments, ClearTeam(tickets, team), ClearUserTeam(users, team))
  {
  }

  lemma ClearTeamKeepsRows(tickets: map<TicketId, Ticket>, teams: map<TeamId, Team>,
                           nextTicket: nat, nextTeam: nat, v: Validators, clock: Instant, team: TeamId)
    requires TicketRowsValid(tickets, v, clock) && KeysBelow(tickets, nextTicket)
    requires NamesValid(teams) && KeysBelow(teams, nextTeam)
    ensures TicketRowsValid(ClearTeam(tickets, team), v, clock) && KeysBelow(ClearTeam(tickets, team), nextTicket)
    ensures NamesValid(teams - {team}) && KeysBelow(teams - {team}, nextTeam)
  {
  }

  lemma ClearCategoryKeepsLinks(tickets: map<TicketId, Ticket>, users: map<UserId, User>,
                                teams: map<TeamId, Team>, categories: map<CategoryId, Category>,
                                category: CategoryId)
    requires TicketLinksResolve(tickets, users, teams, categories)
    ensures TicketLinksResolve(ClearCategory(tickets, category), users, teams, categories - {category})
  {
  }

  lemma DeleteUserKeepsLinks(tickets: map<TicketId, Ticket>, comments: map<CommentId, Comment>,
                             users: map<UserId, User>, teams: map<TeamId, Team>,
                             categories: map<CategoryId, Category>, user: UserId)
    requires TicketLinksResolve(tickets, users, teams, categories)
    requires CommentLinksResolve(comments, tickets, users)
    ensures TicketLinksResolve(TicketsNotBy(tickets, user), users - {user}, teams, categories)
    ensures CommentLinksResolve(CommentsOnAfterUserDelete(comments, TicketsNotBy(tickets, user), user),
                                TicketsNotBy(tickets, user), users - {user})
  {
  }

  // Each operation keeps the invariant.

  lemma InsertUserKeeps(db: Tables, team: Option<TeamId>)
    requires Consistent(db) && (team.Some? ==> team.value in db.teams)
    ensures Consistent(db.(users := db.users[db.nextUser := User(team)], nextUser := db.nextUser + 1))
  {
  }

  lemma InsertTeamKeeps(db: Tables, name: string)
    requires Consistent(db) && NameErrors(name, Names(db.teams)) == {}
    ensures Consistent(db.(teams := db.teams[db.nextTeam := Named(name)], nextTeam := db.nextTeam + 1))
  {
  }

  lemma InsertCategoryKeeps(db: Tables, name: string)
    requires Consistent(db) && NameErrors(name, Names(db.categories)) == {}
    ensures Consistent(db.(categories := db.categories[db.nextCategory := Named(name)],
                           nextCategory := db.nextCategory + 1))
  {
  }

  /** The foreign keys of one ticket row resolve. */
  ghost predicate TicketResolves(t: Ticket, db: Tables)
  {
    && t.author in db.users
    && (t.category.Some? ==> t.category.value in db.categories)
    && (t.assignedTeam.Some? ==> t.assignedTeam.value in db.teams)
    && (t.assignedTechnician.Some? ==> t.assignedTechnician.value in db.users)
  }

  lemma InsertTicketKeeps(db: Tables, t: Ticket, now: Instant)
    requires Consistent(db) && db.clock <= now
    requires TicketResolves(t, db) && TicketRowOk(t, db.validators, now)
    ensures Consistent(db.(tickets := db.tickets[db.nextTicket := t], nextTicket := db.nextTicket + 1,
                           clock := now))
  {
  }

  /** Replacing a stored ticket with a valid row, and moving the clock
      forward, keeps the row rules of both tickets and comments. */
  lemma ReplaceTicketKeepsRows(tickets: map<TicketId, Ticket>, comments: map<CommentId, Comment>, id: TicketId,
                               t: Ticket, v: Validators, clock: Instant, now: Instant)
    requires TicketRowsValid(tickets, v, clock) && CommentRowsValid(comments, v, clock)
    requires clock <= now && TicketRowOk(t, v, now)
    ensures TicketRowsValid(tickets[id := t], v, now) && CommentRowsValid(comments, v, now)
  {
  }

  lemma ReplaceTicketKeeps(db: Tables, id: TicketId, t: Ticket, now: Instant)
    requires Consistent(db) && db.clock <= now && id in db.tickets
    requires TicketResolves(t, db) && TicketRowOk(t, db.validators, now)
    ensures Consistent(db.(tickets := db.tickets[id := t], clock := now))
  {
    ReplaceTicketKeepsRows(db.tickets, db.comments, id, t, db.validators, db.clock, now);
  }


  lemma InsertCommentKeeps(db: Tables, c: Comment, now: Instant)
    requires Consistent(db) && db.clock <= now
    requires c.ticket in db.tickets && (c.author.Some? ==> c.author.value in db.users) && c.createdOn <= now
    requires c.body != "" && db.validators.bodyOk(c.body)
    ensures Consistent(db.(comments := db.comments[db.nextComment := c], nextComment := db.nextComment + 1,
                           clock := now))
  {
  }

  lemma DeleteTeamKeeps(db: Tables, team: TeamId)
    requires Consistent(db)
    ensures Consistent(db.(teams := db.teams - {team}, tickets := ClearTeam(db.tickets, team),
                           users := ClearUserTeam(db.users, team)))
  {
    ClearTeamKeepsLinks(db.tickets, db.users, db.teams, db.categories, team);
    ClearTeamKeepsComments(db.comments, db.tickets, db.users, team);
    ClearTeamKeepsRows(db.tickets, db.teams, db.nextTicket, db.nextTeam, db.validators, db.clock, team);
  }

  lemma DeleteCategoryKeeps(db: Tables, category: CategoryId)
    requires Consistent(db)
    ensures Consistent(db.(categories := db.categories - {category},
                           tickets := ClearCategory(db.tickets, category)))
  {
    ClearCategoryKeepsLinks(db.tickets, db.users, db.teams, db.categories, category);
  }

  lemma DeleteTicketKeeps(db: Tables, id: TicketId)
    requires Consistent(db)
    ensures Consistent(db.(tickets := db.tickets - {id}, comments := CommentsNotOn(db.comments, id)))
  {
  }

  lemma DeleteCommentKeeps(db: Tables, id: CommentId)
    requires Consistent(db)
    ensures Consistent(db.(comments := db.comments - {id}))
  {
  }

  lemma DeleteUserKeeps(db: Tables, user: UserId)
    requires Consistent(db)
    ensures var survivors := TicketsNotBy(db.tickets, user);
      Consistent(db.(users := db.users - {user}, tickets := survivors,
                     comments := CommentsOnAfterUserDelete(db.comments, survivors, user)))
  {
    DeleteUserKeepsLinks(db.tickets, db.comments, db.users, db.teams, db.categories, user);
  }

  class Database {
    var users: map<UserId, User>
    var teams: map<TeamId, Team>
    var categories: map<CategoryId, Category>
    var tickets: map<TicketId, Ticket>
    var comments: map<CommentId, Comment>

    /** Next primary key of each table; keys start at 1 and are not reused. */
    var nextUser: nat
    var nextTeam: nat
    var nextCategory: nat
    var nextTicket: nat
    var nextComment: nat

    /** The latest instant stamped on a row. */
    var clock: Instant

    /** The field validators the model imports, fixed for the store's
        lifetime. */
    const validators: Validators

    /** The tables as one value. */
    function Snapshot(): Tables
      reads this
    {
      Tables(users, teams, categories, tickets, comments,
             nextUser, nextTeam, nextCategory, nextTicket, nextComment, clock, validators)
    }

    ghost predicate Valid()
      reads this
    {
      Consistent(Snapshot())
    }

    constructor (start: Instant, validators: Validators)
      ensures Valid()
      ensures this.validators == validators
      ensures users == map[] && teams == map[] && categories == map[]
      ensures tickets == map[] && comments == map[]
      ensures clock == start
    {
      users, teams, categories, tickets, comments := map[], map[], map[], map[], map[];
      nextUser, nextTeam, nextCategory, nextTicket, nextComment := 1, 1, 1, 1, 1;
      clock := start;
      this.validators := validators;
    }

    /** Insert an account whose team is optional but, when given, exists. */
    method CreateUser(team: Option<TeamId>) returns (r: Outcome<UserId>)
      requires Valid()
      modifies this`users, this`nextUser
      ensures Valid()
      ensures r.Rejected? <==> team.Some? && team.value !in teams
      ensures r.Rejected? ==> r.errors == {TeamMissing} && users == old(users) && nextUser == old(nextUser)
      ensures r.Saved? ==>
        && r.id == old(nextUser) && r.id !in old(users)
        && users == old(users)[r.id := User(team)] && nextUser == old(nextUser) + 1
    {
      if team.Some? && team.value !in teams {
        return Rejected({TeamMissing});
      }
      ghost var db := Snapshot();
      InsertUserKeeps(db, team);
      r := Saved(nextUser);
      users := users[nextUser := User(team)];
      nextUser := nextUser + 1;
      assert Snapshot() == db.(users := db.users[db.nextUser := User(team)], nextUser := db.nextUser + 1);
    }

    method CreateTeam(name: string) returns (r: Outcome<TeamId>)
      requires Valid()
      modifies this`teams, this`nextTeam
      ensures Valid()
      ensures r.Rejected? <==> NameErrors(name, Names(old(teams))) != {}
      ensures r.Rejected? ==>
        r.errors == NameErrors(name, Names(old(teams))) && teams == old(teams) && nextTeam == old(nextTeam)
      ensures r.Saved? ==>
        && r.id == old(nextTeam) && r.id !in old(teams)
        && teams == old(teams)[r.id := Named(name)] && nextTeam == old(nextTeam) + 1
    {
      var errors := NameErrors(name, Names(teams));
      if errors != {} {
        return Rejected(errors);
      }
      ghost var db := Snapshot();
      InsertTeamKeeps(db, name);
      r := Saved(nextTeam);
      teams := teams[nextTeam := Named(name)];
      nextTeam := nextTeam + 1;
      assert Snapshot() == db.(teams := db.teams[db.nextTeam := Named(name)], nextTeam := db.nextTeam + 1);
    }

    method CreateCategory(name: string) returns (r: Outcome<CategoryId>)
      requires Valid()
      modifies this`categories, this`nextCategory
      ensures Valid()
      ensures r.Rejected? <==> NameErrors(name, Names(old(categories))) != {}
      ensures r.Rejected? ==>
        && r.errors == NameErrors(name, Names(old(categories)))
        && categories == old(categories) && nextCategory == old(nextCategory)
      ensures r.Saved? ==>
        && r.id == old(nextCategory) && r.id !in old(categories)
        && categories == old(categories)[r.id := Named(name)] && nextCategory == old(nextCategory) + 1
    {
      var errors := NameErrors(name, Names(categories));
      if errors != {} {
        return Rejected(errors);
      }
      ghost var db := Snapshot();
      InsertCategoryKeeps(db, name);
      r := Saved(nextCategory);
      categories := categories[nextCategory := Named(name)];
      nextCategory := nextCategory + 1;
      assert Snapshot() == db.(categories := db.categories[db.nextCategory := Named(name)],
                               nextCategory := db.nextCategory + 1);
    }

    /** The staff creation form: validate every field with the store's
        validators, then insert the ticket with its defaults and both
        timestamps at `now`, or reject it and change nothing. */
    method CreateTicket(author: UserId, ticketType: Option<TicketType>, category: Option<CategoryId>,
                        title: string, description: string, image: Option<ImageFile>,
                        now: Instant) returns (r: Outcome<TicketId>)
      requires Valid() && clock <= now
      modifies this`tickets, this`nextTicket, this`clock
      ensures Valid()
      ensures r.Rejected? <==>
        TicketErrors(author, category, title, description, image, validators, users.Keys, categories.Keys) != {}
      ensures r.Rejected? ==>
        && r.errors == TicketErrors(author, category, title, description, image, validators, users.Keys, categories.Keys)
        && tickets == old(tickets) && nextTicket == old(nextTicket) && clock == old(clock)
      ensures r.Saved? ==>
        && r.id == old(nextTicket) && r.id !in old(tickets)
        && tickets == old(tickets)[r.id := NewTicket(author, ticketType, category, title, description, image, now)]
        && nextTicket == old(nextTicket) + 1 && clock == now
    {
      var errors := TicketErrors(author, category, title, description, image, validators, users.Keys, categories.Keys);
      if errors != {} {
        return Rejected(errors);
      }
      ghost var db := Snapshot();
      var t := NewTicket(author, ticketType, category, title, description, image, now);
      InsertTicketKeeps(db, t, now);
      r := Saved(nextTicket);
      tickets := tickets[nextTicket := t];
      nextTicket := nextTicket + 1;
      clock := now;
      assert Snapshot() == db.(tickets := db.tickets[db.nextTicket := t], nextTicket := db.nextTicket + 1,
                               clock := now);
    }

    /** Insert a comment on an existing ticket by an existing user. */
    method AddComment(ticket: TicketId, author: UserId, body: string, now: Instant)
      returns (r: Outcome<CommentId>)
      requires Valid() && clock <= now
      modifies this`comments, this`nextComment, this`clock
      ensures Valid()
      ensures r.Rejected? <==> CommentErrors(ticket, author, body, validators, tickets.Keys, users.Keys) != {}
      ensures r.Rejected? ==>
        && r.errors == CommentErrors(ticket, author, body, validators, tickets.Keys, users.Keys)
        && comments == old(comments) && nextComment == old(nextComment) && clock == old(clock)
      ensures r.Saved? ==>
        && r.id == old(nextComment) && r.id !in old(comments)
        && comments == old(comments)[r.id := Comment(ticket, Some(author), body, now)]
        && nextComment == old(nextComment) + 1 && clock == now
    {
      var errors := CommentErrors(ticket, author, body, validators, tickets.Keys, users.Keys);
      if errors != {} {
        return Rejected(errors);
      }
      ghost var db := Snapshot();
      var c := Comment(ticket, Some(author), body, now);
      InsertCommentKeeps(db, c, now);
      r := Saved(nextComment);
      comments := comments[nextComment := c];
      nextComment := nextComment + 1;
      clock := now;
      assert Snapshot() == db.(comments := db.comments[db.nextComment := c], nextComment := db.nextComment + 1,
                               clock := now);
    }

    /** `set_ticket_updated_now`: a partial save of `updated_on` alone.
        For a ticket that is no longer stored, `ok == false` stands for the
        `DatabaseError` that Django raises when a save with `update_fields`
        affects no row; the store is then unchanged. */
    method SetTicketUpdatedNow(id: TicketId, now: Instant) returns (ok: bool)
      requires Valid() && clock <= now
      modifies this`tickets, this`clock
      ensures Valid()
      ensures ok <==> id in old(tickets)
      ensures ok ==> tickets == old(tickets)[id := Touch(old(tickets)[id], now)] && clock == now
      ensures !ok ==> tickets == old(tickets) && clock == old(clock)
    {
      if id !in tickets {
        return false;
      }
      ghost var db := Snapshot();
      var t := Touch(tickets[id], now);
      ReplaceTicketKeeps(db, id, t, now);
      tickets := tickets[id := t];
      clock := now;
      assert Snapshot() == db.(tickets := db.tickets[id := t], clock := now);
      return true;
    }

    /** A save of one edited field; `updated_on` is refreshed on the way. */
    method SaveTicket(id: TicketId, e: Edit, now: Instant) returns (r: Outcome<TicketId>)
      requires Valid() && clock <= now
      modifies this`tickets, this`clock
      ensures Valid()
      ensures id !in old(tickets) ==> r == Rejected({TicketMissing})
      ensures id in old(tickets) ==>
        r == (if EditErrors(e, users.Keys, teams.Keys, categories.Keys) == {} then Saved(id)
              else Rejected(EditErrors(e, users.Keys, teams.Keys, categories.Keys)))
      ensures r.Saved? ==> tickets == old(tickets)[id := ApplyEdit(old(tickets)[id], e, now)] && clock == now
      ensures r.Rejected? ==> tickets == old(tickets) && clock == old(clock)
    {
      if id !in tickets {
        return Rejected({TicketMissing});
      }
      var errors := EditErrors(e, users.Keys, teams.Keys, categories.Keys);
      if errors != {} {
        return Rejected(errors);
      }
      ghost var db := Snapshot();
      var t := ApplyEdit(tickets[id], e, now);
      ReplaceTicketKeeps(db, id, t, now);
      tickets := tickets[id := t];
      clock := now;
      assert Snapshot() == db.(tickets := db.tickets[id := t], clock := now);
      r := Saved(id);
    }

    /** Delete a team: SET_NULL on `Ticket.assigned_team` and on the
        account's `team`; no row is removed but the team's. */
    method DeleteTeam(team: TeamId)
      requires Valid()
      modifies this`teams, this`tickets, this`users
      ensures Valid()
      ensures teams == old(teams) - {team}
      ensures tickets.Keys == old(tickets).Keys
      ensures forall k :: k in tickets ==> tickets[k] == NullTeam(old(tickets)[k], team)
      ensures users.Keys == old(users).Keys
      ensures forall u :: u in users ==> users[u] == NullUserTeam(old(users)[u], team)
    {
      ghost var db := Snapshot();
      DeleteTeamKeeps(db, team);
      teams := teams - {team};
      tickets := ClearTeam(tickets, team);
      users := ClearUserTeam(users, team);
      assert Snapshot() == db.(teams := db.teams - {team}, tickets := ClearTeam(db.tickets, team),
                               users := ClearUserTeam(db.users, team));
    }

    /** Delete a category: SET_NULL on `Ticket.category`. */
    method DeleteCategory(category: CategoryId)
      requires Valid()
      modifies this`categories, this`tickets
      ensures Valid()
      ensures categories == old(categories) - {category}
      ensures tickets.Keys == old(tickets).Keys
      ensures forall k :: k in tickets ==> tickets[k] == NullCategory(old(tickets)[k], category)
    {
      ghost var db := Snapshot();
      DeleteCategoryKeeps(db, category);
      categories := categories - {category};
      tickets := ClearCategory(tickets, category);
      assert Snapshot() == db.(categories := db.categories - {category},
                               tickets := ClearCategory(db.tickets, category));
    }

    /** Delete a ticket: CASCADE to its comments. */
    method DeleteTicket(id: TicketId)
      requires Valid()
      modifies this`tickets, this`comments
      ensures Valid()
      ensures tickets == old(tickets) - {id}
      ensures comments.Keys == set c | c in old(comments) && old(comments)[c].ticket != id
      ensures forall c :: c in comments ==> comments[c] == old(comments)[c]
    {
      ghost var db := Snapshot();
      DeleteTicketKeeps(db, id);
      tickets := tickets - {id};
      comments := CommentsNotOn(comments, id);
      assert Snapshot() == db.(tickets := db.tickets - {id}, comments := CommentsNotOn(db.comments, id));
    }

    method DeleteComment(id: CommentId)
      requires Valid()
      modifies this`comments
      ensures Valid()
      ensures comments == old(comments) - {id}
    {
      ghost var db := Snapshot();
      DeleteCommentKeeps(db, id);
      comments := comments - {id};
      assert Snapshot() == db.(comments := db.comments - {id});
    }

    /** Delete an account: CASCADE to the tickets they authored and from
        those to their comments; SET_NULL on `assigned_technician` of the
        surviving tickets and on `Comment.author` of the surviving
        comments. */
    method DeleteUser(user: UserId)
      requires Valid()
      modifies this`users, this`tickets, this`comments
      ensures Valid()
      ensures users == old(users) - {user}
      ensures tickets.Keys == set k | k in old(tickets) && old(tickets)[k].author != user
      ensures forall k :: k in tickets ==> tickets[k] == NullTechnician(old(tickets)[k], user)
      ensures comments.Keys == set c | c in old(comments) && old(comments)[c].ticket in tickets
      ensures forall c :: c in comments ==> comments[c] == NullAuthor(old(comments)[c], user)
    {
      ghost var db := Snapshot();
      DeleteUserKeeps(db, user);
      var survivors := TicketsNotBy(tickets, user);
      users := users - {user};
      comments := CommentsOnAfterUserDelete(comments, survivors, user);
      tickets := survivors;
      assert Snapshot() == db.(users := db.users - {user}, tickets := survivors,
                               comments := CommentsOnAfterUserDelete(db.comments, survivors, user));
    }

    /** The default listing (`Meta.ordering = ("-updated_on",)`): every
        stored ticket exactly once, none before a more recently updated one. */
    function ListTickets(): (s: seq<TicketId>)
      reads this
      requires Valid()
      ensures forall k :: k in tickets <==> k in s
      ensures Ordering.Distinct(s)
      ensures forall i, j :: 0 <= i < j < |s| ==>
                s[i] in tickets && s[j] in tickets && tickets[s[i]].updatedOn >= tickets[s[j]].updatedOn
    {
      Ordering.ListingIsNewestFirstPermutation(tickets, nextTicket);
      Ordering.Listing(tickets, nextTicket)
    }
  }
}
