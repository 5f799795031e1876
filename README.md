# Support Hub ticket store, modelled in Dafny

Support Hub is a helpdesk application. Users raise tickets. Staff file each
ticket under a category, assign it to a team and a technician, and move it
through four statuses. Participants add comments. The persistent part is the
Django model of the `tickets` application and the account's link to a team.
This project restates that model as an explicit in-memory relational store:

- one map per table, from primary key to row: accounts, teams, ticket
  categories, tickets and comments. Keys are auto-increment ids that start
  at 1 and are never reused;
- inserts that validate every field first and then either insert the row or
  reject it with every error found, leaving the store unchanged;
- `updated_on` stamping from an injected clock;
- the declared `on_delete` actions, CASCADE and SET_NULL, carried out as
  explicit table updates;
- the default ticket listing, newest `updated_on` first.

Files and modules:

- `optional.dfy` (`Optional`): nullable values.
- `choices.dfy` (`Choices`): status, type and priority as closed datatypes,
  with their stored codes, labels and defaults.
- `display.dfy` (`Display`): the printed form `Request #: <id> - <title>`.
- `records.dfy` (`Records`): the rows, the field rules, and the per-row
  effects of a save and of SET_NULL.
- `ordering.dfy` (`Ordering`): the default listing order.
- `store.dfy` (`Store`): the `Database` class that holds the tables, its
  invariant `Valid()`, and one method per insert, save and delete.

The store invariant (`Store.Consistent`) covers six things:

- every key was issued by its table's counter;
- every non-null foreign key names an existing row;
- team and category names are non-blank, at most 30 characters long, and
  unique;
- every stored ticket has a title of 10 to 50 characters, a non-blank
  description that the description validator accepts, and an image (if
  any) that the image validator accepts;
- every stored comment has a non-blank body that the body validator
  accepts;
- `created_on <= updated_on <= clock` holds for every ticket, and every
  comment was created no later than the clock.

Every method of `Database` requires the invariant and re-establishes it.
It states its whole new state in terms of the old one. Each method declares
only the fields it may change (for example ``modifies this`teams``), so the
other tables are unchanged by construction.

Points where the code decides something a reader might expect otherwise:

- Category: the `category` field is `null=True` but `blank=False`, so
  validation on creation and on edit rejects a missing category
  (`CategoryBlank`). In the model only a category deletion sets the
  column to NULL. In the program, a save that skips validation (a plain
  `save()` or `objects.create()`) can also store NULL, because the column
  is `null=True`.
- Listing order: the code orders by `-updated_on` only. Ties are left to
  the database, so the model promises nothing about them.
- Description and image rules: `tickets/validators.py` is not part of this
  model, so `textfield_not_empty` and `validate_image` enter as injected
  predicates (the `Validators` datatype) and are not restated.
- Validator order: Django runs a field's validators only on a non-blank
  value. A blank title, description or comment body therefore gives only
  its "blank" error, and an absent image is not validated. The uniqueness
  check of a name runs only when the name passed its own field checks.

## Model

| member | source | states |
|---|---|---|
| `Choices.StatusCode` | tickets/models.py:85-89 | every status code is non-empty and fits the 10-character `status` column |
| `Choices.ParseStatus` | tickets/models.py:45-50 | a stored string is accepted as a status exactly when it is the code of that status; every other string is refused |
| `Choices.TypeCode` | tickets/models.py:90-94 | every type code is non-empty and fits the 8-character `type` column |
| `Choices.ParseType` | tickets/models.py:52-55 | a string is a type exactly when it is the code of that type |
| `Choices.PriorityCode` | tickets/models.py:95-99 | every priority code is non-empty and fits the 6-character `priority` column |
| `Choices.ParsePriority` | tickets/models.py:57-61 | a string is a priority exactly when it is the code of that priority |
| `Display.Decimal` | tickets/models.py:128-129 | the id in the printed form is a non-empty string of decimal digits with no leading zero |
| `Display.DecimalRoundTrip` | tickets/models.py:128-129 | reading the printed id back as a decimal number gives the id |
| `Display.DecimalInjective` | tickets/models.py:128-129 | different ids print differently |
| `Display.TicketLabel` | tickets/models.py:128-129 | the printed ticket starts with `Request #: `, ends with the title, and has the length of prefix, id, separator and title together |
| `Display.TicketLabelInjective` | tickets/models.py:128-129 | the printed form determines both the id and the title, even when the title contains ` - ` |
| `Records.TitleErrors` | tickets/models.py:68-73 | the title is accepted exactly when it has 10 to 50 characters; a blank title is reported as blank, a shorter one as too short, a longer one as too long |
| `Records.TextErrors` | tickets/models.py:74-76 | a required text field is accepted exactly when it is non-blank and its validator accepts it; the validator is not consulted on a blank value |
| `Records.ImageErrors` | tickets/models.py:77-84 | the image is accepted exactly when none is uploaded or the image validator accepts the upload |
| `Records.NameErrors` | tickets/models.py:23 | a team or category name is accepted exactly when it is non-blank, at most 30 characters long and not yet taken; a duplicate is reported only for a name that passed its field checks |
| `Records.KeyErrors` | tickets/models.py:102-108 | a required foreign key is accepted exactly when it is non-null and names an existing row; NULL gives only the blank error, an unknown key only the missing error |
| `Records.ReferenceErrors` | tickets/models.py:63-108 | the author must exist and the category is required and must exist; each failure gives its own error, and no other error is produced |
| `Records.ContentErrors` | tickets/models.py:68-84 | the title has 10 to 50 characters, the description is non-blank and valid, and an uploaded image is valid; each failure gives its own error, and no other error is produced |
| `Records.TicketErrors` | tickets/models.py:63-108 | a new ticket is accepted exactly when its author and its category exist, its title has 10 to 50 characters, its description is non-blank and valid, and its image (if any) is valid; each of the nine ticket errors is present exactly when its own rule fails, and no other error appears |
| `Records.CommentErrors` | tickets/models.py:155-168 | a comment is accepted exactly when its ticket and author exist and its body is non-blank and valid; each of the four comment errors is present exactly when its own rule fails, and no other error appears |
| `Records.EditErrors` | tickets/models.py:102-122 | an edit is accepted exactly when a new category is non-null and exists, and a new team or technician is null or exists |
| `Records.NewTicket` | tickets/models.py:85-101 | a new ticket has status open and priority low, type request unless one is given, no team and no technician, and `created_on == updated_on == now` |
| `Records.Touch` | tickets/models.py:147-152 | `set_ticket_updated_now` sets `updated_on` to the clock value, and restoring that one field gives back the original ticket |
| `Records.ApplyEdit` | tickets/models.py:100-101 | a save writes the edited field, refreshes `updated_on` to now, and keeps `created_on` and every other field |
| `Records.SavesKeepCreatedOn` | tickets/models.py:100-101 | after any sequence of modelled saves, `created_on` is the value set at creation and `updated_on` is the instant of the last save; author, title, description and image are kept too, since the modelled edits do not write them |
| `Records.NullTeam` | tickets/models.py:109-115 | SET_NULL: `assigned_team` becomes null exactly when it named the deleted team; no other field changes |
| `Records.NullCategory` | tickets/models.py:102-108 | SET_NULL: `category` becomes null exactly when it named the deleted category; no other field changes |
| `Records.NullTechnician` | tickets/models.py:116-122 | SET_NULL: `assigned_technician` becomes null exactly when it was the deleted user; no other field changes |
| `Records.NullAuthor` | tickets/models.py:161-166 | SET_NULL: a comment's author becomes null exactly when it was the deleted user; no other field changes |
| `Records.NullUserTeam` | accounts/migrations/0002_customuser_team.py:18 | SET_NULL: an account's team becomes null exactly when it was the deleted team, and is otherwise kept |
| `Ordering.IdsBelow` | tickets/models.py:124-126 | enumerates every stored ticket below the bound once, in ascending id order |
| `Ordering.Sort` | tickets/models.py:124-126 | the ordered listing is a permutation of its input, and every id in it names a stored ticket |
| `Ordering.SortNewestFirst` | tickets/models.py:124-126 | the ordered listing never has a ticket before one with a later `updated_on` |
| `Ordering.ListingIsNewestFirstPermutation` | tickets/models.py:124-126 | the default listing holds every stored ticket exactly once, with `updated_on` non-increasing |
| `Store.ClearTeam` | tickets/models.py:109-115 | deleting a team keeps every ticket and applies SET_NULL of `assigned_team` to each one |
| `Store.ClearUserTeam` | accounts/migrations/0002_customuser_team.py:18 | deleting a team keeps every account and applies SET_NULL of `team` to each one |
| `Store.ClearCategory` | tickets/models.py:102-108 | deleting a category keeps every ticket and applies SET_NULL of `category` to each one |
| `Store.CommentsNotOn` | tickets/models.py:158-160 | a ticket's CASCADE removes exactly the comments on that ticket and leaves the others as they were |
| `Store.TicketsNotBy` | tickets/models.py:63-67 | a user's CASCADE removes exactly the tickets they authored, and applies SET_NULL of the technician to the rest |
| `Store.CommentsOnAfterUserDelete` | tickets/models.py:158-166 | after a user's deletion, exactly the comments on surviving tickets remain, with SET_NULL of their author |
| `Store.InsertUserKeeps` | accounts/migrations/0002_customuser_team.py:18 | inserting an account whose team is null or exists keeps the store invariant |
| `Store.InsertTeamKeeps` | tickets/models.py:23 | inserting a team whose name passed the name rules keeps the names unique and the invariant |
| `Store.InsertCategoryKeeps` | tickets/models.py:36 | inserting a category whose name passed the name rules keeps the names unique and the invariant |
| `Store.InsertTicketKeeps` | tickets/models.py:63-122 | inserting a ticket whose links resolve and whose fields pass the title, description and image rules keeps the invariant |
| `Store.ReplaceTicketKeeps` | tickets/models.py:100-101 | saving a ticket, with `updated_on` refreshed to a clock value no earlier than before, keeps the invariant |
| `Store.InsertCommentKeeps` | tickets/models.py:155-168 | inserting a comment on a stored ticket, with a stored or null author and a non-blank valid body, keeps the invariant |
| `Store.DeleteTeamKeeps` | accounts/migrations/0002_customuser_team.py:18 | deleting a team with its SET_NULL actions on tickets and accounts keeps the invariant: every non-null account team and ticket team still names an existing team |
| `Store.DeleteCategoryKeeps` | tickets/models.py:102-108 | deleting a category with its SET_NULL action keeps the invariant |
| `Store.DeleteTicketKeeps` | tickets/models.py:158-160 | deleting a ticket with its comment CASCADE keeps the invariant |
| `Store.DeleteCommentKeeps` | tickets/models.py:155-168 | deleting a comment keeps the invariant |
| `Store.DeleteUserKeeps` | tickets/models.py:63-67 | deleting a user with its CASCADE and SET_NULL actions keeps the invariant |
| `Store.Database.constructor` | tickets/models.py:13-168 | a new store is empty and consistent, and keeps for its lifetime the one set of validators it is given |
| `Store.Database.CreateUser` | accounts/migrations/0002_customuser_team.py:18 | an account with a null team or with an existing team is inserted under the next id; one whose team does not exist is rejected and nothing changes |
| `Store.Database.CreateTeam` | tickets/models.py:23 | a team is inserted exactly when its name passes the name rules against the existing names; otherwise every error is returned and the table is unchanged |
| `Store.Database.CreateCategory` | tickets/models.py:36 | as for teams, for ticket categories |
| `Store.Database.CreateTicket` | tickets/models.py:63-101 | validate, then insert or reject. A ticket with no field errors is inserted under the next id with the defaults and both stamps at `now`. Otherwise every error is returned and the tickets, the counter and the clock are unchanged |
| `Store.Database.AddComment` | tickets/models.py:155-168 | a valid comment is inserted with the given author and `created_on = now`; otherwise every error is returned and nothing changes |
| `Store.Database.SetTicketUpdatedNow` | tickets/models.py:147-152 | only the `updated_on` of that ticket becomes `now`; every other field of it and every other row is unchanged; for a ticket that is not stored, `ok == false` stands for the `DatabaseError` a save with `update_fields` raises when no row is affected, and nothing changes |
| `Store.Database.SaveTicket` | tickets/models.py:100-122 | a save of a stored ticket with a valid edit writes that field and refreshes `updated_on`; a missing ticket or an invalid edit is rejected and nothing changes |
| `Store.Database.DeleteTeam` | tickets/models.py:109-115 | removes only the team; every ticket and every account remains, and exactly those that referred to the team get a null team |
| `Store.Database.DeleteCategory` | tickets/models.py:102-108 | removes only the category; every ticket remains, and exactly those in it get a null category |
| `Store.Database.DeleteTicket` | tickets/models.py:158-160 | removes the ticket and exactly its comments; the other comments are unchanged |
| `Store.Database.DeleteComment` | tickets/models.py:155-168 | removes exactly that comment |
| `Store.Database.DeleteUser` | tickets/models.py:63-67 | removes the user and every ticket they authored, and by cascade the comments on those tickets. On the surviving tickets, a technician equal to the user becomes null. The user's comments on surviving tickets remain with a null author |
| `Store.Database.ListTickets` | tickets/models.py:124-126 | the default listing holds each stored ticket exactly once, with `updated_on` non-increasing |

## Left out

- Validator rules: `textfield_not_empty` and `validate_image` live in
  `tickets/validators.py`, which is not part of this model. The
  `Validators` datatype stands for them. A store is given one value of it
  when it is built (`Database.validators`), as the module imports one fixed
  set (tickets/models.py:13). No concrete rule is assumed for them.
- `body_without_tags`: it calls Django's `strip_tags`, a library that is not
  part of this model. `Comment.BodyWithoutTags` applies a given tag-stripping
  function and leaves the stored body as it is. It has no contract and no
  row in the table above, because nothing about `strip_tags` is known here.
- `get_time_now` and the `auto_now` stamps: both read the wall clock, which
  can step backwards (a clock correction, several server processes). The
  stamping methods take `now` as a parameter and require it to be no
  earlier than the store's latest stamp. This is an assumption of the model,
  not a guarantee of the program, and the ordering
  `created_on <= updated_on <= clock` in `Store.Consistent` rests on it.
- `Records.NewTicket`: one injected instant per operation stands for
  Django's separate clock reads per auto field. On insert, `created_on`
  (`auto_now_add`) and `updated_on` (`auto_now`) are read one after the
  other, so the program gives `created_on <= updated_on`, not equality.
- `Records.Touch`, `Store.Database.SetTicketUpdatedNow`: the value from
  `get_time_now` is replaced by a fresh `auto_now` reading during
  `save(update_fields=...)`. The model stamps the single instant `now`.
- `Records.ApplyEdit`, `Store.Database.SaveTicket`: the views that edit
  tickets are not part of this model. These members model one-field saves of
  the editable columns (status, type, priority, category, team,
  technician).
  Edits of title, description and image are not modelled, although they
  are ordinary editable fields.
- `Records.SavesKeepCreatedOn`: that author, title, description and image
  survive every save holds only for the modelled edits. A form or admin
  save can rewrite them; only `created_on` (`auto_now_add`) is fixed by the
  program itself.
- Validation on insert: the store validates every row it inserts, as a
  form's `full_clean` does. `Model.save()` and `objects.create()` skip
  validation in the program and could store rows the model's invariant
  excludes (a NULL category, a blank description).
- `Display.TicketLabel`: only stored tickets are printed. An unsaved
  ticket has no id, and `__str__` then prints `Request #: None - <title>`.
- `Store.Database.CreateUser`: the account model `accounts/models.py` is not
  part of this model. An account row carries only its `team` link.
- Form behaviour: the Summernote widget, whitespace stripping of form
  input, and the staff form beyond its field list.
- `get_absolute_url` (URL routing), CloudinaryField blob storage (an image
  is kept as the uploaded file value), database transactions and
  concurrency.
- Settings, `accounts/views.py`, and
  `tickets/migrations/0003_alter_ticket_status.py`: configuration, template
  rendering, and a restatement of the status choices already modelled.
- Filtering tickets by status, category, team or assignee, and any ordering
  of comments: the shown code declares neither.
- The display labels of the choices (`Choices.StatusLabel` and the others)
  appear only in rendered pages, which are not part of this model. The model
  defines them and states nothing about them.
- `Store.Database.ListTickets`: it does not state any order among tickets
  with equal `updated_on`. The code leaves that order to the database.
