/** The profile record of the client, as the TypeScript interfaces declare
    it and as the JavaScript objects actually carry it: any string property
    may be missing or `null`, list properties may be missing, and the
    record reached by the client may be a full database row, a form being
    filled in, or the `{id, message}` body the create route answers with. */
module Profile {
  import opened Seqs

  /** Identifiers assigned by the store. */
  type Id = nat

  /** A string-valued property of a JavaScript object. */
  datatype Field = Undefined | Null | Str(s: string) {

    /** JavaScript truthiness: only a non-empty string is truthy. */
    predicate Truthy() {
      Str? && s != ""
    }

    /** The text a template literal `${...}` produces for the property. */
    function Text(): string {
      match this
      case Undefined => "undefined"
      case Null => "null"
      case Str(s) => s
    }
  }

  /** One entry of a structured list (a project, a position or an
      education), keyed by field name, as the dynamic list editor builds it. */
  type Record = map<string, string>

  /** Field names of the structured entries. */
  const ProjectFields: seq<string> := ["title", "description", "link"]
  const PositionFields: seq<string> := ["title", "company", "duration", "description"]
  const EducationFields: seq<string> := ["degree", "institution", "year"]

  /** A profile. `linkedIn` is the property the admin form writes and
      `linkedin` the column name the server stores and the portfolio reads;
      both are kept as they are. A list property that is `None` is absent
      (`undefined` or `null`); a present list is truthy even when empty. */
  datatype User = User(
    id: Option<Id>,
    name: Field,
    profession: Field,
    company: Field,
    address: Field,
    email: Field,
    phone: Field,
    website: Field,
    photo: Field,
    coverImage: Field,
    cv_url: Field,
    bio: Field,
    linkedIn: Field,
    linkedin: Field,
    github: Field,
    twitter: Field,
    instagram: Field,
    skills: Option<seq<string>>,
    years_of_experience: Option<int>,
    specializations: Option<seq<string>>,
    languages: Option<seq<string>>,
    certifications: Option<seq<string>>,
    awards: Option<seq<string>>,
    personal_projects: Option<seq<Record>>,
    previous_positions: Option<seq<Record>>,
    education: Option<seq<Record>>,
    projects: Option<seq<Record>>)

  /** An object that carries an `id` and none of the profile properties. */
  function BareUser(id: Option<Id>): (u: User)
    ensures u.id == id
    ensures !u.name.Str? && !u.profession.Str? && !u.photo.Str?
  {
    User(id, Undefined, Undefined, Undefined, Undefined, Undefined, Undefined, Undefined,
         Undefined, Undefined, Undefined, Undefined, Undefined, Undefined, Undefined,
         Undefined, Undefined, None, None, None, None, None, None, None, None, None, None)
  }

  /** The body the create route answers with, `{id, message}`, read as a
      profile: only `id` is set (the `message` text is read by no code). */
  function CreatedResponseBody(id: Id): (u: User)
    ensures u.id == Some(id) && u.name == Undefined && u.profession == Undefined
  {
    BareUser(Some(id))
  }

  /** The admin form's initial (and reset) state: nine empty lists. */
  function EmptyForm(): (u: User)
    ensures u.id == None && !u.name.Truthy() && !u.profession.Truthy() && !u.photo.Truthy()
    ensures u.skills == Some([]) && u.specializations == Some([]) && u.languages == Some([])
    ensures u.personal_projects == Some([]) && u.certifications == Some([]) && u.awards == Some([])
    ensures u.previous_positions == Some([]) && u.education == Some([]) && u.projects == Some([])
  {
    BareUser(None).(skills := Some([]), specializations := Some([]), languages := Some([]),
                    personal_projects := Some([]), certifications := Some([]), awards := Some([]),
                    previous_positions := Some([]), education := Some([]), projects := Some([]))
  }

  /** Opaque text produced by `JSON.stringify` of a list of entries. */
  datatype JsonText = Stringified(entries: seq<Record>)

  /** The object the admin console hands to the client cache: the form's
      own properties (`form`) with the five string lists replaced by
      PostgreSQL array literals and the four structured lists by JSON text. */
  datatype Payload = Payload(
    form: User,
    skills: string,
    specializations: string,
    languages: string,
    certifications: string,
    awards: string,
    personal_projects: JsonText,
    previous_positions: JsonText,
    education: JsonText,
    projects: JsonText)
}
