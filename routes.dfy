/** The REST handlers of the server over two abstract tables, `users` and
    `cards`. Request bodies are untyped JSON objects; each handler answers
    with a status and a body, and any failure of the store answers 500. */
module Routes {
  import opened Seqs
  import Profile

  /** A JSON value as Express parses it from a request body. */
  datatype Json =
    | JNull
    | JBool(b: bool)
    | JNum(n: int)
    | JStr(s: string)
    | JArr(items: seq<Json>)
    | JObj(props: map<string, Json>)

  /** A request body; a property it lacks reads as `undefined`. */
  type Body = map<string, Json>

  /** `body.key`, with `None` for `undefined`. */
  function Get(body: Body, key: string): (r: Option<Json>)
    ensures r.Some? <==> key in body
  {
    if key in body then Some(body[key]) else None
  }

  /** JavaScript truthiness of a property value. */
  predicate Truthy(v: Option<Json>) {
    match v
    case None => false
    case Some(JNull) => false
    case Some(JBool(b)) => b
    case Some(JNum(n)) => n != 0
    case Some(JStr(s)) => s != ""
    case Some(JArr(_)) => true
    case Some(JObj(_)) => true
  }

  /** A query parameter as the store receives it: `undefined` is bound as
      SQL `NULL`. */
  function Bound(v: Option<Json>): (r: Json)
    ensures v.Some? ==> r == v.value
    ensures v.None? ==> r == JNull
  {
    if v.Some? then v.value else JNull
  }

  // ---------------------------------------------------------------------
  // The users table

  /** The 24 profile columns the create and update routes write. */
  datatype Column =
    | Name | Profession | Company | Address | Email | Phone | Website | Photo | Bio
    | Skills | YearsOfExperience | Specializations | Languages | Certifications | Awards
    | PersonalProjects | PreviousPositions | Education | Projects
    | Linkedin | Github | Twitter | Instagram | CvUrl

  const AllColumns: set<Column> := {
    Name, Profession, Company, Address, Email, Phone, Website, Photo, Bio,
    Skills, YearsOfExperience, Specializations, Languages, Certifications, Awards,
    PersonalProjects, PreviousPositions, Education, Projects,
    Linkedin, Github, Twitter, Instagram, CvUrl }

  lemma EveryColumnListed(c: Column)
    ensures c in AllColumns
  {
    match c
    case Name => case Profession => case Company => case Address => case Email =>
    case Phone => case Website => case Photo => case Bio => case Skills =>
    case YearsOfExperience => case Specializations => case Languages =>
    case Certifications => case Awards => case PersonalProjects =>
    case PreviousPositions => case Education => case Projects => case Linkedin =>
    case Github => case Twitter => case Instagram => case CvUrl =>
  }

  /** The request-body property each column is read from. */
  function Key(c: Column): string {
    match c
    case Name => "name"
    case Profession => "profession"
    case Company => "company"
    case Address => "address"
    case Email => "email"
    case Phone => "phone"
    case Website => "website"
    case Photo => "photo"
    case Bio => "bio"
    case Skills => "skills"
    case YearsOfExperience => "years_of_experience"
    case Specializations => "specializations"
    case Languages => "languages"
    case Certifications => "certifications"
    case Awards => "awards"
    case PersonalProjects => "personal_projects"
    case PreviousPositions => "previous_positions"
    case Education => "education"
    case Projects => "projects"
    case Linkedin => "linkedin"
    case Github => "github"
    case Twitter => "twitter"
    case Instagram => "instagram"
    case CvUrl => "cv_url"
  }

  /** How the create route fills a column: required ones are bound as
      given, falsy scalars become `null` and falsy collections `[]`. */
  datatype Kind = Required | Scalar | Collection

  function KindOf(c: Column): Kind {
    match c
    case Name => Required
    case Profession => Required
    case Photo => Required
    case Skills => Collection
    case Specializations => Collection
    case Languages => Collection
    case Certifications => Collection
    case Awards => Collection
    case PersonalProjects => Collection
    case PreviousPositions => Collection
    case Education => Collection
    case Projects => Collection
    case _ => Scalar
  }

  /** A stored profile: one value per column and the two timestamps
      (`CURRENT_TIMESTAMP` and `NOW()`, given as clock readings). */
  datatype UserRow = UserRow(values: map<Column, Json>, created_at: nat, updated_at: nat)

  /** The create route's required-field check. */
  predicate HasRequired(body: Body) {
    Truthy(Get(body, "name")) && Truthy(Get(body, "profession")) && Truthy(Get(body, "photo"))
  }

  /** The value the create route binds for a column: `x || null` or
      `x || []`, so a falsy value is replaced by the column's default. */
  function InsertValue(body: Body, c: Column): (r: Json)
    ensures Truthy(Get(body, Key(c))) ==> r == Get(body, Key(c)).value
    ensures !Truthy(Get(body, Key(c))) && c.YearsOfExperience? ==> r == JNull
    ensures !Truthy(Get(body, Key(c))) ==> (Truthy(Some(r)) <==> KindOf(c) == Collection)
  {
    var v := Get(body, Key(c));
    match KindOf(c)
    case Required => Bound(v)
    case Scalar => if Truthy(v) then v.value else JNull
    case Collection => if Truthy(v) then v.value else JArr([])
  }

  /** The row the create route inserts. */
  function Inserted(body: Body, now: nat): (r: UserRow)
    ensures r.created_at == now && r.updated_at == now
  {
    UserRow(map c | c in AllColumns :: InsertValue(body, c), now, now)
  }

  /** The row the update route leaves: every column set from the body,
      whatever the body holds (a missing property becomes `null`), the
      creation time kept and the update time refreshed. */
  function Replaced(row: UserRow, body: Body, now: nat): (r: UserRow)
    ensures r.created_at == row.created_at && r.updated_at == now
  {
    UserRow(map c | c in AllColumns :: Bound(Get(body, Key(c))), row.created_at, now)
  }

  /** Created and updated rows have a value for every column. */
  lemma RowsComplete(body: Body, row: UserRow, now: nat, c: Column)
    ensures c in Inserted(body, now).values && c in Replaced(row, body, now).values
  {
    EveryColumnListed(c);
  }

  /** A created row holds a truthy property of the body as given. */
  lemma TruthyStored(body: Body, now: nat, c: Column)
    requires Truthy(Get(body, Key(c)))
    ensures Inserted(body, now).values[c] == body[Key(c)]
  {
    EveryColumnListed(c);
  }

  /** A created row holds the column default where the body's property is
      falsy: `[]` for a collection, `null` for a scalar. */
  lemma FalsyStored(body: Body, now: nat, c: Column)
    requires KindOf(c) != Required && !Truthy(Get(body, Key(c)))
    ensures Inserted(body, now).values[c] == if KindOf(c) == Collection then JArr([]) else JNull
  {
    EveryColumnListed(c);
  }

  /** An update forgets every column the body does not carry, including the
      required ones, and takes the rest from the body as they are. */
  lemma ReplacedIsFullReplace(row: UserRow, body: Body, now: nat, c: Column)
    ensures Key(c) !in body ==> Replaced(row, body, now).values[c] == JNull
    ensures Key(c) in body ==> Replaced(row, body, now).values[c] == body[Key(c)]
  {
    EveryColumnListed(c);
  }

  /** A falsy `linkedin` property leaves the column `null`. */
  lemma AbsentLinkedinStoredNull(body: Body, now: nat)
    requires !Truthy(Get(body, "linkedin"))
    ensures Inserted(body, now).values[Linkedin] == JNull
  {
    FalsyStored(body, now, Linkedin);
  }

  /** A truthy `skills` property is stored as sent. */
  lemma SentSkillsStored(body: Body, now: nat)
    requires Truthy(Get(body, "skills"))
    ensures Inserted(body, now).values[Skills] == body["skills"]
  {
    TruthyStored(body, now, Skills);
  }

  /** Zero years of experience is falsy, so it is stored as `null`. */
  lemma ZeroYearsStoredNull(body: Body, now: nat)
    requires Get(body, "years_of_experience") == Some(JNum(0))
    ensures Inserted(body, now).values[YearsOfExperience] == JNull
  {
    FalsyStored(body, now, YearsOfExperience);
  }

  // ---------------------------------------------------------------------
  // The cards table

  /** A stored card: the three columns the routes write and, once an
      update has run, its time. Other columns take the table's defaults. */
  datatype CardRow = CardRow(user_id: Json, nfc_id: Json, is_active: Json, updated_at: Option<nat>)

  /** The card the create route inserts, with no validation at all: any
      body is accepted, each of the three columns holds the property as
      sent, or `null` when the body lacks it. */
  function NewCard(body: Body): (r: CardRow)
    ensures r.updated_at == None
    ensures "user_id" in body ==> r.user_id == body["user_id"]
    ensures "user_id" !in body ==> r.user_id == JNull
    ensures "nfc_id" in body ==> r.nfc_id == body["nfc_id"]
    ensures "nfc_id" !in body ==> r.nfc_id == JNull
    ensures "is_active" in body ==> r.is_active == body["is_active"]
    ensures "is_active" !in body ==> r.is_active == JNull
  {
    CardRow(Bound(Get(body, "user_id")), Bound(Get(body, "nfc_id")), Bound(Get(body, "is_active")), None)
  }

  // ---------------------------------------------------------------------
  // Answers

  /** What a handler sends. */
  datatype Answer =
    | UserTable(users: map<Id, UserRow>)
    | OneUser(id: Id, row: UserRow)
    | UserCreated(newId: Id)
    | CardTable(cards: map<Id, CardRow>)
    | OneCard(cardId: Id, card: CardRow)
    | CardCreated(createdId: Id, created: CardRow)
    | NoContent
    | MissingRequired
    | NotFound
    | ServerError
  {
    function Status(): int {
      match this
      case UserCreated(_) => 201
      case CardCreated(_, _) => 201
      case NoContent => 204
      case MissingRequired => 400
      case NotFound => 404
      case ServerError => 500
      case _ => 200
    }
  }

  type Id = Profile.Id

  /** The server's view of the store. Ids come from one sequence per table
      and are never reused. */
  class Api {
    var users: map<Id, UserRow>
    var nextUserId: Id
    var cards: map<Id, CardRow>
    var nextCardId: Id

    /** Every stored id was drawn before the counter's current value. */
    ghost predicate Valid()
      reads this
    {
      && (forall id :: id in users ==> id < nextUserId)
      && (forall id :: id in cards ==> id < nextCardId)
    }

    constructor()
      ensures Valid()
      ensures users == map[] && cards == map[]
    {
      users := map[];
      nextUserId := 1;
      cards := map[];
      nextCardId := 1;
    }

    /** `GET /api/users`. */
    method ListUsers(fault: bool) returns (a: Answer)
      ensures fault ==> a == ServerError
      ensures !fault ==> a == UserTable(users) && a.Status() == 200
    {
      if fault {
        return ServerError;
      }
      a := UserTable(users);
    }

    /** `GET /api/users/:id`. */
    method GetUser(id: Id, fault: bool) returns (a: Answer)
      ensures fault ==> a == ServerError
      ensures !fault && id !in users ==> a == NotFound && a.Status() == 404
      ensures !fault && id in users ==> a == OneUser(id, users[id]) && a.Status() == 200
    {
      if fault {
        return ServerError;
      }
      if id !in users {
        return NotFound;
      }
      a := OneUser(id, users[id]);
    }

    /** `POST /api/users`: 400 before touching the store when a required
      property is falsy; otherwise a row under a fresh id, answered with
      201 and that id. */
    method CreateUser(body: Body, fault: bool, now: nat) returns (a: Answer)
      requires Valid()
      modifies this
      ensures Valid()
      ensures !HasRequired(body) ==> a == MissingRequired && a.Status() == 400 && unchanged(this)
      ensures HasRequired(body) && fault ==> a == ServerError && a.Status() == 500 && unchanged(this)
      ensures HasRequired(body) && !fault ==>
        && old(nextUserId) !in old(users)
        && users == old(users)[old(nextUserId) := Inserted(body, now)]
        && nextUserId == old(nextUserId) + 1
        && cards == old(cards) && nextCardId == old(nextCardId)
        && a == UserCreated(old(nextUserId)) && a.Status() == 201
    {
      if !HasRequired(body) {
        return MissingRequired;
      }
      if fault {
        return ServerError;
      }
      var id := nextUserId;
      users := users[id := Inserted(body, now)];
      nextUserId := nextUserId + 1;
      a := UserCreated(id);
    }

    /** `PUT /api/users/:id`: no validation; a present row is replaced
      column by column from the body and returned, an absent id is 404. */
    method UpdateUser(id: Id, body: Body, fault: bool, now: nat) returns (a: Answer)
      requires Valid()
      modifies this
      ensures Valid()
      ensures fault ==> a == ServerError && unchanged(this)
      ensures !fault && id !in old(users) ==> a == NotFound && a.Status() == 404 && unchanged(this)
      ensures !fault && id in old(users) ==>
        && users == old(users)[id := Replaced(old(users)[id], body, now)]
        && nextUserId == old(nextUserId) && cards == old(cards) && nextCardId == old(nextCardId)
        && a == OneUser(id, users[id]) && a.Status() == 200
    {
      if fault {
        return ServerError;
      }
      if id !in users {
        return NotFound;
      }
      users := users[id := Replaced(users[id], body, now)];
      a := OneUser(id, users[id]);
    }

    /** `DELETE /api/users/:id`: 204 once the row is gone, 404 when there
      was none. */
    method DeleteUser(id: Id, fault: bool) returns (a: Answer)
      requires Valid()
      modifies this
      ensures Valid()
      ensures fault ==> a == ServerError && unchanged(this)
      ensures !fault && id !in old(users) ==> a == NotFound && unchanged(this)
      ensures !fault && id in old(users) ==>
        && users == old(users) - {id} && a == NoContent && a.Status() == 204
        && nextUserId == old(nextUserId) && cards == old(cards) && nextCardId == old(nextCardId)
    {
      if fault {
        return ServerError;
      }
      if id !in users {
        return NotFound;
      }
      users := users - {id};
      a := NoContent;
    }

    /** `GET /api/cards`. */
    method ListCards(fault: bool) returns (a: Answer)
      ensures fault ==> a == ServerError
      ensures !fault ==> a == CardTable(cards) && a.Status() == 200
    {
      if fault {
        return ServerError;
      }
      a := CardTable(cards);
    }

    /** `GET /api/cards/:id`. */
    method GetCard(id: Id, fault: bool) returns (a: Answer)
      ensures fault ==> a == ServerError
      ensures !fault && id !in cards ==> a == NotFound && a.Status() == 404
      ensures !fault && id in cards ==> a == OneCard(id, cards[id]) && a.Status() == 200
    {
      if fault {
        return ServerError;
      }
      if id !in cards {
        return NotFound;
      }
      a := OneCard(id, cards[id]);
    }

    /** `POST /api/cards`: whatever the body holds is inserted under a
      fresh id and the row is returned with 201. */
    method CreateCard(body: Body, fault: bool) returns (a: Answer)
      requires Valid()
      modifies this
      ensures Valid()
      ensures fault ==> a == ServerError && unchanged(this)
      ensures !fault ==>
        && old(nextCardId) !in old(cards)
        && cards == old(cards)[old(nextCardId) := NewCard(body)]
        && nextCardId == old(nextCardId) + 1
        && users == old(users) && nextUserId == old(nextUserId)
        && a == CardCreated(old(nextCardId), NewCard(body)) && a.Status() == 201
    {
      if fault {
        return ServerError;
      }
      var id := nextCardId;
      cards := cards[id := NewCard(body)];
      nextCardId := nextCardId + 1;
      a := CardCreated(id, NewCard(body));
    }

    /** `PUT /api/cards/:id`: the three columns replaced from the body and
      the update time set, or 404. */
    method UpdateCard(id: Id, body: Body, fault: bool, now: nat) returns (a: Answer)
      requires Valid()
      modifies this
      ensures Valid()
      ensures fault ==> a == ServerError && unchanged(this)
      ensures !fault && id !in old(cards) ==> a == NotFound && unchanged(this)
      ensures !fault && id in old(cards) ==>
        && cards == old(cards)[id := NewCard(body).(updated_at := Some(now))]
        && nextCardId == old(nextCardId) && users == old(users) && nextUserId == old(nextUserId)
        && a == OneCard(id, cards[id]) && a.Status() == 200
    {
      if fault {
        return ServerError;
      }
      if id !in cards {
        return NotFound;
      }
      cards := cards[id := NewCard(body).(updated_at := Some(now))];
      a := OneCard(id, cards[id]);
    }

    /** `DELETE /api/cards/:id`. */
    method DeleteCard(id: Id, fault: bool) returns (a: Answer)
      requires Valid()
      modifies this
      ensures Valid()
      ensures fault ==> a == ServerError && unchanged(this)
      ensures !fault && id !in old(cards) ==> a == NotFound && unchanged(this)
      ensures !fault && id in old(cards) ==>
        && cards == old(cards) - {id} && a == NoContent && a.Status() == 204
        && nextCardId == old(nextCardId) && users == old(users) && nextUserId == old(nextUserId)
    {
      if fault {
        return ServerError;
      }
      if id !in cards {
        return NotFound;
      }
      cards := cards - {id};
      a := NoContent;
    }
  }

  /** Create, read, delete, read again: 201, 200 with the inserted row,
      204, then 404, and the table is as it was. */
  method CreateReadDelete(api: Api, body: Body, now: nat) returns (statuses: seq<int>)
    requires api.Valid() && HasRequired(body)
    modifies api
    ensures statuses == [201, 200, 204, 404]
    ensures api.Valid() && api.users == old(api.users)
  {
    var created := api.CreateUser(body, false, now);
    var id := created.newId;
    var read := api.GetUser(id, false);
    assert read.row == Inserted(body, now);
    var deleted := api.DeleteUser(id, false);
    var again := api.GetUser(id, false);
    assert api.users == old(api.users);
    statuses := [created.Status(), read.Status(), deleted.Status(), again.Status()];
  }
}
