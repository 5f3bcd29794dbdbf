/** The request body the client sends: the payload object serialised as
    JSON, with `undefined` properties left out. The text `JSON.stringify`
    makes of a structured list is a parameter (`encode`), since its key
    order is not modelled. This module relates the client's checks and
    field names to the server's. */
module Wire {
  import opened Seqs
  import opened JsText
  import opened Profile
  import opened Admin
  import Routes

  /** A string property as it appears in the body. */
  function FieldJson(f: Field): (r: Option<Routes.Json>)
    ensures r.None? <==> f.Undefined?
    ensures f.Null? ==> r == Some(Routes.JNull)
    ensures f.Str? ==> r == Some(Routes.JStr(f.s))
  {
    match f
    case Undefined => None
    case Null => Some(Routes.JNull)
    case Str(s) => Some(Routes.JStr(s))
  }

  function NumberJson(n: Option<int>): Option<Routes.Json> {
    match n
    case None => None
    case Some(v) => Some(Routes.JNum(v))
  }

  /** The value of one property of the serialised payload. */
  function PayloadProperty(p: Payload, encode: JsonText -> string, key: string): Option<Routes.Json> {
    var u := p.form;
    if key == "name" then FieldJson(u.name)
    else if key == "profession" then FieldJson(u.profession)
    else if key == "photo" then FieldJson(u.photo)
    else if key == "linkedin" then FieldJson(u.linkedin)
    else if key == "skills" then Some(Routes.JStr(p.skills))
    else if key == "id" then (if u.id == None then None else Some(Routes.JNum(u.id.value)))
    else if key == "company" then FieldJson(u.company)
    else if key == "address" then FieldJson(u.address)
    else if key == "email" then FieldJson(u.email)
    else if key == "phone" then FieldJson(u.phone)
    else if key == "website" then FieldJson(u.website)
    else if key == "coverImage" then FieldJson(u.coverImage)
    else if key == "cv_url" then FieldJson(u.cv_url)
    else if key == "bio" then FieldJson(u.bio)
    else if key == "linkedIn" then FieldJson(u.linkedIn)
    else if key == "github" then FieldJson(u.github)
    else if key == "twitter" then FieldJson(u.twitter)
    else if key == "instagram" then FieldJson(u.instagram)
    else if key == "years_of_experience" then NumberJson(u.years_of_experience)
    else if key == "specializations" then Some(Routes.JStr(p.specializations))
    else if key == "languages" then Some(Routes.JStr(p.languages))
    else if key == "certifications" then Some(Routes.JStr(p.certifications))
    else if key == "awards" then Some(Routes.JStr(p.awards))
    else if key == "personal_projects" then Some(Routes.JStr(encode(p.personal_projects)))
    else if key == "previous_positions" then Some(Routes.JStr(encode(p.previous_positions)))
    else if key == "education" then Some(Routes.JStr(encode(p.education)))
    else if key == "projects" then Some(Routes.JStr(encode(p.projects)))
    else None
  }

  const PayloadKeys: set<string> := {
    "id", "name", "profession", "company", "address", "email", "phone", "website",
    "photo", "coverImage", "cv_url", "bio", "linkedIn", "linkedin", "github",
    "twitter", "instagram", "years_of_experience", "skills", "specializations",
    "languages", "certifications", "awards", "personal_projects",
    "previous_positions", "education", "projects" }

  /** The body the server parses from the payload. */
  function PayloadBody(p: Payload, encode: JsonText -> string): (body: Routes.Body)
    ensures forall key :: key in PayloadKeys ==> Routes.Get(body, key) == PayloadProperty(p, encode, key)
  {
    map key | key in PayloadKeys && PayloadProperty(p, encode, key).Some? :: PayloadProperty(p, encode, key).value
  }

  /** A payload built from a form that passes the console's gate (the
      payload keeps the form's own properties) passes the create route's
      required-field check. */
  lemma ConsoleGateMeetsServerCheck(p: Payload, encode: JsonText -> string)
    requires RequiredFilled(p.form)
    ensures Routes.HasRequired(PayloadBody(p, encode))
  {
    BodyProperty(p, encode, "name");
    BodyProperty(p, encode, "profession");
    BodyProperty(p, encode, "photo");
  }

  /** The cache checks only name and profession: a payload without a photo
      leaves the client and is refused by the server with 400. */
  lemma PhotoCheckedOnlyByServer(p: Payload, encode: JsonText -> string)
    requires p.form.name.Truthy() && p.form.profession.Truthy() && !p.form.photo.Truthy()
    ensures !Routes.HasRequired(PayloadBody(p, encode))
  {
    assert Routes.Get(PayloadBody(p, encode), "photo") == FieldJson(p.form.photo);
  }

  lemma BodyProperty(p: Payload, encode: JsonText -> string, key: string)
    requires key in PayloadKeys
    ensures Routes.Get(PayloadBody(p, encode), key) == PayloadProperty(p, encode, key)
  {
  }

  /** The console writes the LinkedIn address under `linkedIn`; the create
      route reads `linkedin`, so a profile created from a form that never set
      `linkedin` is stored without its LinkedIn address, whatever
      `linkedIn` holds. */
  lemma LinkedInNotStored(p: Payload, encode: JsonText -> string, now: nat)
    requires p.form.linkedin == Undefined
    ensures Routes.Inserted(PayloadBody(p, encode), now).values[Routes.Linkedin] == Routes.JNull
  {
    BodyProperty(p, encode, "linkedin");
    Routes.AbsentLinkedinStoredNull(PayloadBody(p, encode), now);
  }

  /** A new profile's skills are stored as the literal the console built
      (which the store reads back as the form's non-blank entries, by
      `AddPayloadReadsBack`). */
  lemma SkillsStoredAsSent(p: Payload, encode: JsonText -> string, now: nat)
    requires p.skills != ""
    ensures Routes.Inserted(PayloadBody(p, encode), now).values[Routes.Skills] == Routes.JStr(p.skills)
  {
    BodyProperty(p, encode, "skills");
    Routes.SentSkillsStored(PayloadBody(p, encode), now);
  }
}
