/** Rows of the five tables (accounts users, teams, ticket categories,
    tickets, comments), the field rules checked before a row is inserted, and
    the per-row edits a save performs. Ids are the positive auto-increment
    primary keys; instants come from an injected clock. */
module Records {

  import opened Optional
  import opened Choices

  type UserId = nat
  type TeamId = nat
  type CategoryId = nat
  type TicketId = nat
  type CommentId = nat

  /** A point in time, as given by the injected clock. */
  type Instant = int

  /** An uploaded image file; only the image validator looks inside it. */
  datatype ImageFile = ImageFile(name: string, content: seq<bv8>)

  /** The account row; only the `team` link belongs to this model. */
  datatype User = User(team: Option<TeamId>)

  /** A team or ticket category row: both tables hold a unique name and
      nothing else. */
  datatype Named = Named(name: string)

  type Team = Named

  type Category = Named

  datatype Ticket = Ticket(
    author: UserId,
    title: string,
    description: string,
    image: Option<ImageFile>,
    status: Status,
    ticketType: TicketType,
    priority: Priority,
    createdOn: Instant,
    updatedOn: Instant,
    category: Option<CategoryId>,
    assignedTeam: Option<TeamId>,
    assignedTechnician: Option<UserId>)

  datatype Comment = Comment(
    ticket: TicketId,
    author: Option<UserId>,
    body: string,
    createdOn: Instant)
  {
    /** The body with its markup removed, by the given tag stripper; the
        stored body is left as it is. */
    function BodyWithoutTags(stripTags: string -> string): string
    {
      stripTags(body)
    }
  }

  /** The field validators whose rules are not part of this model:
      `textfield_not_empty(min_length=20)` on descriptions,
      `textfield_not_empty()` on comment bodies and `validate_image`. */
  datatype Validators = Validators(
    descriptionOk: string -> bool,
    bodyOk: string -> bool,
    imageOk: ImageFile -> bool)

  /** Why a row was refused. */
  datatype FieldError =
    | TitleBlank | TitleTooShort | TitleTooLong
    | DescriptionBlank | DescriptionInvalid
    | ImageInvalid
    | CategoryBlank | CategoryMissing
    | AuthorMissing
    | NameBlank | NameTooLong | NameTaken
    | TeamMissing | TechnicianMissing | TicketMissing
    | BodyBlank | BodyInvalid

  /** Result of an insert or a save: the row's id, or every error found. */
  datatype Outcome<T> = Saved(id: T) | Rejected(errors: set<FieldError>)

  const TITLE_MIN_LENGTH: nat := 10
  const TITLE_MAX_LENGTH: nat := 50
  const NAME_MAX_LENGTH: nat := 30

  predicate TitleInRange(title: string)
  {
    TITLE_MIN_LENGTH <= |title| <= TITLE_MAX_LENGTH
  }

  /** Errors of the title field. A blank value fails the required check and
      its length validators are not run on it. */
  function TitleErrors(title: string): (r: set<FieldError>)
    ensures r == {} <==> TitleInRange(title)
    ensures TitleBlank in r <==> title == ""
    ensures TitleTooShort in r <==> 0 < |title| < TITLE_MIN_LENGTH
    ensures TitleTooLong in r <==> |title| > TITLE_MAX_LENGTH
    ensures r <= {TitleBlank, TitleTooShort, TitleTooLong}
  {
    if title == "" then {TitleBlank}
    else if |title| < TITLE_MIN_LENGTH then {TitleTooShort}
    else if |title| > TITLE_MAX_LENGTH then {TitleTooLong}
    else {}
  }

  /** Errors of a required text field with a validator; the validator is not
      run on a blank value. */
  function TextErrors(text: string, ok: string -> bool, blank: FieldError, invalid: FieldError): (r: set<FieldError>)
    requires blank != invalid
    ensures r == {} <==> text != "" && ok(text)
    ensures blank in r <==> text == ""
    ensures invalid in r <==> text != "" && !ok(text)
    ensures r <= {blank, invalid}
  {
    if text == "" then {blank} else if !ok(text) then {invalid} else {}
  }

  /** Errors of the optional image: the validator only sees an upload. */
  function ImageErrors(image: Option<ImageFile>, ok: ImageFile -> bool): (r: set<FieldError>)
    ensures r == {} <==> image.None? || ok(image.value)
    ensures r <= {ImageInvalid}
  {
    if image.Some? && !ok(image.value) then {ImageInvalid} else {}
  }

  /** Errors of a team or category name: required, at most 30 characters,
      and unique in its table. The uniqueness check is only made for a name
      that passed its field checks. */
  function NameErrors(name: string, taken: set<string>): (r: set<FieldError>)
    ensures r == {} <==> name != "" && |name| <= NAME_MAX_LENGTH && name !in taken
    ensures NameBlank in r <==> name == ""
    ensures NameTooLong in r <==> |name| > NAME_MAX_LENGTH
    ensures NameTaken in r <==> name != "" && |name| <= NAME_MAX_LENGTH && name in taken
  {
    if name == "" then {NameBlank}
    else if |name| > NAME_MAX_LENGTH then {NameTooLong}
    else if name in taken then {NameTaken}
    else {}
  }

  /** A new ticket as inserted: status open, priority low, type request
      unless one is given, no team and no technician. The one instant `now`
      stands for the two clock reads that fill `created_on` and
      `updated_on`. */
  function NewTicket(author: UserId, ticketType: Option<TicketType>, category: Option<CategoryId>,
                     title: string, description: string, image: Option<ImageFile>, now: Instant): (t: Ticket)
    ensures t.status == Open && t.priority == Low
    ensures t.ticketType == (if ticketType.Some? then ticketType.value else Request)
    ensures t.assignedTeam.None? && t.assignedTechnician.None?
    ensures t.createdOn == now && t.updatedOn == now
    ensures t.author == author && t.category == category
    ensures t.title == title && t.description == description && t.image == image
  {
    Ticket(author, title, description, image, DEFAULT_STATUS,
           if ticketType.Some? then ticketType.value else DEFAULT_TYPE,
           DEFAULT_PRIORITY, now, now, category, None, None)
  }

  /** `set_ticket_updated_now`: only `updated_on` becomes the given instant. */
  function Touch(t: Ticket, now: Instant): (r: Ticket)
    ensures r.updatedOn == now
    ensures r.(updatedOn := t.updatedOn) == t
  {
    t.(updatedOn := now)
  }

  /** The editable fields a save can change, one at a time. */
  datatype Edit =
    | SetStatus(status: Status)
    | SetType(ticketType: TicketType)
    | SetPriority(priority: Priority)
    | SetCategory(category: Option<CategoryId>)
    | SetTeam(team: Option<TeamId>)
    | SetTechnician(technician: Option<UserId>)

  /** A save writing one edited field: that field takes the new value,
      `updated_on` is refreshed, and `created_on` and every other field keep
      their values. */
  function ApplyEdit(t: Ticket, e: Edit, now: Instant): (r: Ticket)
    ensures r.updatedOn == now
    ensures r.createdOn == t.createdOn && r.author == t.author && r.title == t.title
    ensures r.description == t.description && r.image == t.image
    ensures r.status == (if e.SetStatus? then e.status else t.status)
    ensures r.ticketType == (if e.SetType? then e.ticketType else t.ticketType)
    ensures r.priority == (if e.SetPriority? then e.priority else t.priority)
    ensures r.category == (if e.SetCategory? then e.category else t.category)
    ensures r.assignedTeam == (if e.SetTeam? then e.team else t.assignedTeam)
    ensures r.assignedTechnician == (if e.SetTechnician? then e.technician else t.assignedTechnician)
  {
    var t' := match e
      case SetStatus(s) => t.(status := s)
      case SetType(k) => t.(ticketType := k)
      case SetPriority(p) => t.(priority := p)
      case SetCategory(c) => t.(category := c)
      case SetTeam(g) => t.(assignedTeam := g)
      case SetTechnician(u) => t.(assignedTechnician := u);
    t'.(updatedOn := now)
  }

  /** One save of a ticket: the edit it writes and the instant it runs. */
  datatype Save = Save(edit: Edit, at: Instant)

  function ApplySaves(t: Ticket, saves: seq<Save>): Ticket
    decreases |saves|
  {
    if saves == [] then t else ApplySaves(ApplyEdit(t, saves[0].edit, saves[0].at), saves[1..])
  }

  /** However many saves follow, `created_on` keeps the value set at
      creation, while `updated_on` is the instant of the last save. The
      author, title, description and image are kept too, because no `Edit`
      writes them. */
  lemma {:induction false} SavesKeepCreatedOn(t: Ticket, saves: seq<Save>)
    ensures ApplySaves(t, saves).createdOn == t.createdOn
    ensures ApplySaves(t, saves).author == t.author && ApplySaves(t, saves).title == t.title
    ensures ApplySaves(t, saves).description == t.description && ApplySaves(t, saves).image == t.image
    ensures saves != [] ==> ApplySaves(t, saves).updatedOn == saves[|saves| - 1].at
    decreases |saves|
  {
    if saves != [] {
      var t' := ApplyEdit(t, saves[0].edit, saves[0].at);
      SavesKeepCreatedOn(t', saves[1..]);
      if |saves| > 1 {
        assert saves[1..][|saves[1..]| - 1] == saves[|saves| - 1];
      }
    }
  }

  /** Errors of a foreign key the field rules require: NULL is blank, and
      a key must name an existing row. */
  function KeyErrors(key: Option<nat>, rows: set<nat>, blank: FieldError, missing: FieldError): (r: set<FieldError>)
    requires blank != missing
    ensures r == {} <==> key.Some? && key.value in rows
    ensures blank in r <==> key.None?
    ensures missing in r <==> key.Some? && key.value !in rows
    ensures r <= {blank, missing}
  {
    if key.None? then {blank} else if key.value !in rows then {missing} else {}
  }

  /** Errors of a new ticket's links: the author must exist, and the
      category is required and must exist. */
  function ReferenceErrors(author: UserId, category: Option<CategoryId>,
                           users: set<UserId>, categories: set<CategoryId>): (r: set<FieldError>)
    ensures r == {} <==> author in users && category.Some? && category.value in categories
    ensures AuthorMissing in r <==> author !in users
    ensures CategoryBlank in r <==> category.None?
    ensures CategoryMissing in r <==> category.Some? && category.value !in categories
    ensures r <= {AuthorMissing, CategoryBlank, CategoryMissing}
  {
    (if author in users then {} else {AuthorMissing})
    + KeyErrors(category, categories, CategoryBlank, CategoryMissing)
  }

  /** Errors of a new ticket's own fields: title, description and image. */
  function ContentErrors(title: string, description: string, image: Option<ImageFile>, v: Validators): (r: set<FieldError>)
    ensures r == {} <==>
      TitleInRange(title) && description != "" && v.descriptionOk(description)
      && (image.None? || v.imageOk(image.value))
    ensures TitleBlank in r <==> title == ""
    ensures TitleTooShort in r <==> 0 < |title| < TITLE_MIN_LENGTH
    ensures TitleTooLong in r <==> |title| > TITLE_MAX_LENGTH
    ensures DescriptionBlank in r <==> description == ""
    ensures DescriptionInvalid in r <==> description != "" && !v.descriptionOk(description)
    ensures ImageInvalid in r <==> image.Some? && !v.imageOk(image.value)
    ensures r <= {TitleBlank, TitleTooShort, TitleTooLong, DescriptionBlank, DescriptionInvalid, ImageInvalid}
  {
    TitleErrors(title)
    + TextErrors(description, v.descriptionOk, DescriptionBlank, DescriptionInvalid)
    + ImageErrors(image, v.imageOk)
  }

  /** Every error of a ticket about to be inserted; `users` and
      `categories` are the ids present in those tables. */
  function TicketErrors(author: UserId, category: Option<CategoryId>, title: string,
                        description: string, image: Option<ImageFile>, v: Validators,
                        users: set<UserId>, categories: set<CategoryId>): (r: set<FieldError>)
    ensures r == {} <==>
      && author in users
      && category.Some? && category.value in categories
      && TitleInRange(title)
      && description != "" && v.descriptionOk(description)
      && (image.None? || v.imageOk(image.value))
    ensures AuthorMissing in r <==> author !in users
    ensures CategoryBlank in r <==> category.None?
    ensures CategoryMissing in r <==> category.Some? && category.value !in categories
    ensures TitleBlank in r <==> title == ""
    ensures TitleTooShort in r <==> 0 < |title| < TITLE_MIN_LENGTH
    ensures TitleTooLong in r <==> |title| > TITLE_MAX_LENGTH
    ensures DescriptionBlank in r <==> description == ""
    ensures DescriptionInvalid in r <==> description != "" && !v.descriptionOk(description)
    ensures ImageInvalid in r <==> image.Some? && !v.imageOk(image.value)
    ensures r <= {AuthorMissing, CategoryBlank, CategoryMissing, TitleBlank, TitleTooShort, TitleTooLong,
                  DescriptionBlank, DescriptionInvalid, ImageInvalid}
  {
    ReferenceErrors(author, category, users, categories) + ContentErrors(title, description, image, v)
  }

  /** Every error of a comment about to be inserted. */
  function CommentErrors(ticket: TicketId, author: UserId, body: string, v: Validators,
                         tickets: set<TicketId>, users: set<UserId>): (r: set<FieldError>)
    ensures r == {} <==> ticket in tickets && author in users && body != "" && v.bodyOk(body)
    ensures TicketMissing in r <==> ticket !in tickets
    ensures AuthorMissing in r <==> author !in users
    ensures BodyBlank in r <==> body == ""
    ensures BodyInvalid in r <==> body != "" && !v.bodyOk(body)
    ensures r <= {TicketMissing, AuthorMissing, BodyBlank, BodyInvalid}
  {
    (if ticket in tickets then {} else {TicketMissing})
    + (if author in users then {} else {AuthorMissing})
    + TextErrors(body, v.bodyOk, BodyBlank, BodyInvalid)
  }

  /** Errors of an edit: a new category is required and must exist; a new
      team or technician may be NULL but otherwise must exist. */
  function EditErrors(e: Edit, users: set<UserId>, teams: set<TeamId>, categories: set<CategoryId>): (r: set<FieldError>)
    ensures r == {} <==>
      && (e.SetCategory? ==> e.category.Some? && e.category.value in categories)
      && (e.SetTeam? && e.team.Some? ==> e.team.value in teams)
      && (e.SetTechnician? && e.technician.Some? ==> e.technician.value in users)
    ensures CategoryBlank in r <==> e.SetCategory? && e.category.None?
    ensures CategoryMissing in r <==> e.SetCategory? && e.category.Some? && e.category.value !in categories
    ensures TeamMissing in r <==> e.SetTeam? && e.team.Some? && e.team.value !in teams
    ensures TechnicianMissing in r <==> e.SetTechnician? && e.technician.Some? && e.technician.value !in users
    ensures r <= {CategoryBlank, CategoryMissing, TeamMissing, TechnicianMissing}
  {
    match e
    case SetCategory(c) => KeyErrors(c, categories, CategoryBlank, CategoryMissing)
    case SetTeam(g) => if g.Some? && g.value !in teams then {TeamMissing} else {}
    case SetTechnician(u) => if u.Some? && u.value !in users then {TechnicianMissing} else {}
    case _ => {}
  }

  /** ON DELETE SET NULL of `Ticket.assigned_team`. */
  function NullTeam(t: Ticket, team: TeamId): (r: Ticket)
    ensures r.assignedTeam == (if t.assignedTeam == Some(team) then None else t.assignedTeam)
    ensures r.(assignedTeam := t.assignedTeam) == t
  {
    if t.assignedTeam == Some(team) then t.(assignedTeam := None) else t
  }

  /** ON DELETE SET NULL of `Ticket.category`. */
  function NullCategory(t: Ticket, category: CategoryId): (r: Ticket)
    ensures r.category == (if t.category == Some(category) then None else t.category)
    ensures r.(category := t.category) == t
  {
    if t.category == Some(category) then t.(category := None) else t
  }

  /** ON DELETE SET NULL of `Ticket.assigned_technician`. */
  function NullTechnician(t: Ticket, user: UserId): (r: Ticket)
    ensures r.assignedTechnician == (if t.assignedTechnician == Some(user) then None else t.assignedTechnician)
    ensures r.(assignedTechnician := t.assignedTechnician) == t
  {
    if t.assignedTechnician == Some(user) then t.(assignedTechnician := None) else t
  }

  /** ON DELETE SET NULL of `Comment.author`. */
  function NullAuthor(c: Comment, user: UserId): (r: Comment)
    ensures r.author == (if c.author == Some(user) then None else c.author)
    ensures r.(author := c.author) == c
  {
    if c.author == Some(user) then c.(author := None) else c
  }

  /** ON DELETE SET NULL of the account's `team`. */
  function NullUserTeam(u: User, team: TeamId): (r: User)
    ensures r.team == (if u.team == Some(team) then None else u.team)
  {
    if u.team == Some(team) then u.(team := None) else u
  }
}
