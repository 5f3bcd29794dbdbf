/** The portfolio page's "save contact" action: the long vCard, which adds
    to the card's lines a NOTE with the bio (vCard 3.0, RFC 2426 section
    3.6.2), one URL line per social profile, and NOTE lines summarising the
    lists and the years of experience. */
module Portfolio {
  import opened Seqs
  import opened JsText
  import opened Profile
  import opened UserCard

  /** `xs ? 'NOTE:<heading>: ' + xs.join(', ') : ''`; a present list is truthy
      even when it is empty. */
  function ListNote(xs: Option<seq<string>>, heading: string): string {
    if xs.Some? then "NOTE:" + heading + ": " + Join(xs.value, ", ") else ""
  }

  /** `years ? 'NOTE:<years> années d'expérience' : ''`; zero is falsy. */
  function YearsNote(years: Option<int>): string {
    if years.Some? && years.value != 0 then "NOTE:" + NumberToString(years.value) + " années d'expérience"
    else ""
  }

  /** Bio, then the LinkedIn, GitHub, Instagram and Twitter links, read from
      the lower-case `linkedin` property. */
  function SocialLines(u: User): seq<string> {
    [ OptLine(u.bio, "NOTE:", ""),
      OptLine(u.linkedin, "URL:", ""),
      OptLine(u.github, "URL:", ""),
      OptLine(u.instagram, "URL:", ""),
      OptLine(u.twitter, "URL:", "") ]
  }

  /** Skills, years, specializations, languages, certifications, awards. */
  function NoteLines(u: User): seq<string> {
    [ ListNote(u.skills, "Compétences"),
      YearsNote(u.years_of_experience),
      ListNote(u.specializations, "Spécialisations"),
      ListNote(u.languages, "Langues"),
      ListNote(u.certifications, "Certifications"),
      ListNote(u.awards, "Récompenses") ]
  }

  /** The line list as the page builds it, before empty entries are dropped. */
  function PortfolioLiteral(u: User): seq<string> {
    Header(u) + (OptionalLines(u) + SocialLines(u) + NoteLines(u)) + ["END:VCARD"]
  }

  function PortfolioEntries(u: User): seq<string> {
    KeepNonEmpty(PortfolioLiteral(u))
  }

  /** The long vCard text. */
  function PortfolioText(u: User): string {
    Join(PortfolioEntries(u), "\n")
  }

  /** Reference layout of the social lines: each only when truthy. */
  function SocialPresent(u: User): seq<string> {
    IfPresent(u.bio, "NOTE:", "") + IfPresent(u.linkedin, "URL:", "") + IfPresent(u.github, "URL:", "")
    + IfPresent(u.instagram, "URL:", "") + IfPresent(u.twitter, "URL:", "")
  }

  /** A NOTE for a list exactly when the list is present. */
  function ListPresent(xs: Option<seq<string>>, heading: string): (r: seq<string>)
    ensures |r| == Count(xs.Some?)
  {
    if xs.Some? then [ListNote(xs, heading)] else []
  }

  /** Reference layout of the notes. */
  function NotesPresent(u: User): seq<string> {
    ListPresent(u.skills, "Compétences")
    + (if u.years_of_experience.Some? && u.years_of_experience.value != 0
       then [YearsNote(u.years_of_experience)] else [])
    + ListPresent(u.specializations, "Spécialisations") + ListPresent(u.languages, "Langues")
    + ListPresent(u.certifications, "Certifications") + ListPresent(u.awards, "Récompenses")
  }

  /** How many lines the social and note parts emit. */
  function ExtraCount(u: User): nat {
    Count(u.bio.Truthy()) + Count(u.linkedin.Truthy()) + Count(u.github.Truthy())
    + Count(u.instagram.Truthy()) + Count(u.twitter.Truthy())
    + Count(u.skills.Some?) + Count(u.years_of_experience.Some? && u.years_of_experience.value != 0)
    + Count(u.specializations.Some?) + Count(u.languages.Some?)
    + Count(u.certifications.Some?) + Count(u.awards.Some?)
  }

  /** The lines between TITLE and END, in reference form. */
  function BodyLines(u: User): (r: seq<string>)
    ensures |r| == ContactCount(u) + ExtraCount(u)
  {
    ContactLines(u) + SocialPresent(u) + NotesPresent(u)
  }

  /** The long card in reference form. */
  function PortfolioLines(u: User): (r: seq<string>)
    ensures |r| == 5 + ContactCount(u) + ExtraCount(u)
    ensures r[..4] == Header(u) && r[|r| - 1] == "END:VCARD"
  {
    Header(u) + BodyLines(u) + ["END:VCARD"]
  }

  /** A list NOTE is kept exactly when the list is present. */
  lemma KeepListNote(xs: Option<seq<string>>, heading: string)
    ensures KeepIfNonEmpty(ListNote(xs, heading)) == ListPresent(xs, heading)
  {
    if xs.Some? {
      assert ListNote(xs, heading)[0] == 'N';
    }
  }

  lemma KeepYearsNote(years: Option<int>)
    ensures KeepIfNonEmpty(YearsNote(years))
         == if years.Some? && years.value != 0 then [YearsNote(years)] else []
  {
    if years.Some? && years.value != 0 {
      assert YearsNote(years)[0] == 'N';
    }
  }

  lemma KeepSocialLines(u: User)
    ensures KeepNonEmpty(SocialLines(u)) == SocialPresent(u)
  {
    KeepFive(OptLine(u.bio, "NOTE:", ""), OptLine(u.linkedin, "URL:", ""), OptLine(u.github, "URL:", ""),
             OptLine(u.instagram, "URL:", ""), OptLine(u.twitter, "URL:", ""));
    KeepOptLine(u.bio, "NOTE:", "");
    KeepOptLine(u.linkedin, "URL:", "");
    KeepOptLine(u.github, "URL:", "");
    KeepOptLine(u.instagram, "URL:", "");
    KeepOptLine(u.twitter, "URL:", "");
  }

  lemma KeepSix(a: string, b: string, c: string, d: string, e: string, f: string)
    ensures KeepNonEmpty([a, b, c, d, e, f]) == KeepIfNonEmpty(a) + KeepIfNonEmpty(b) + KeepIfNonEmpty(c)
      + KeepIfNonEmpty(d) + KeepIfNonEmpty(e) + KeepIfNonEmpty(f)
  {
    assert [a, b, c, d, e, f] == [a, b, c, d, e] + [f];
    KeepConcat([a, b, c, d, e], [f]);
    KeepFive(a, b, c, d, e);
    KeepOne(f);
  }

  lemma KeepNoteLines(u: User)
    ensures KeepNonEmpty(NoteLines(u)) == NotesPresent(u)
  {
    var a := ListNote(u.skills, "Compétences");
    var b := YearsNote(u.years_of_experience);
    var c := ListNote(u.specializations, "Spécialisations");
    var d := ListNote(u.languages, "Langues");
    var e := ListNote(u.certifications, "Certifications");
    var f := ListNote(u.awards, "Récompenses");
    KeepSix(a, b, c, d, e, f);
    KeepListNote(u.skills, "Compétences");
    KeepYearsNote(u.years_of_experience);
    KeepListNote(u.specializations, "Spécialisations");
    KeepListNote(u.languages, "Langues");
    KeepListNote(u.certifications, "Certifications");
    KeepListNote(u.awards, "Récompenses");
  }

  /** Filtering a list built from a head, three parts and a last line. */
  lemma KeepParts(h: seq<string>, o: seq<string>, s: seq<string>, n: seq<string>, last: string)
    requires last != ""
    ensures KeepNonEmpty(h + (o + s + n) + [last])
         == KeepNonEmpty(h) + (KeepNonEmpty(o) + KeepNonEmpty(s) + KeepNonEmpty(n)) + [last]
  {
    KeepConcat(h + (o + s + n), [last]);
    KeepConcat(h, o + s + n);
    KeepConcat(o + s, n);
    KeepConcat(o, s);
    KeepOne(last);
  }

  /** The long card emits the short card's header and contact lines, then
      NOTE (bio), URL for LinkedIn, GitHub, Instagram and Twitter, then the
      NOTE lines for skills, years, specializations, languages,
      certifications and awards, each only when its property is truthy,
      then END; so it has 5 lines plus one per emitted optional line. */
  lemma PortfolioEntriesLayout(u: User)
    ensures PortfolioEntries(u) == PortfolioLines(u)
    ensures |PortfolioEntries(u)| == 5 + ContactCount(u) + ExtraCount(u)
  {
    KeepParts(Header(u), OptionalLines(u), SocialLines(u), NoteLines(u), "END:VCARD");
    KeepHeader(u);
    KeepOptionalLines(u);
    KeepSocialLines(u);
    KeepNoteLines(u);
  }

  /** The long text starts with the BEGIN, VERSION, FN and TITLE lines and
      ends with the END line, with no trailing newline. */
  lemma PortfolioTextFrame(u: User)
    ensures StartsWith(PortfolioText(u), "BEGIN:VCARD" + "\n" + "VERSION:3.0" + "\n" + "FN:" + u.name.Text()
                                         + "\n" + "TITLE:" + u.profession.Text() + "\n")
    ensures EndsWith(PortfolioText(u), "\n" + "END:VCARD")
  {
    PortfolioTextIsJoinedLines(u);
    JoinFrame(Header(u), BodyLines(u), "END:VCARD", "\n");
    HeaderText(u);
  }

  /** The long text is the reference lines joined by LF. */
  lemma PortfolioTextIsJoinedLines(u: User)
    ensures PortfolioText(u) == Join(PortfolioLines(u), "\n")
  {
    PortfolioEntriesLayout(u);
  }

  lemma LiteralPrefix(h: seq<string>, c: seq<string>, s: seq<string>, n: seq<string>, last: string)
    ensures (h + c + [last])[..|h + c + [last]| - 1] <= h + (c + s + n) + [last]
  {
    assert (h + c + [last])[..|h + c + [last]| - 1] == h + c;
    assert h + (c + s + n) + [last] == (h + c) + (s + n + [last]);
  }

  /** The short card's list, without its END line, is a prefix of the long
      card's list, both before and after empty entries are dropped. */
  lemma CardIsPrefixOfPortfolio(u: User)
    ensures CardLiteral(u)[..|CardLiteral(u)| - 1] <= PortfolioLiteral(u)
    ensures CardEntries(u)[..|CardEntries(u)| - 1] <= PortfolioEntries(u)
  {
    LiteralPrefix(Header(u), OptionalLines(u), SocialLines(u), NoteLines(u), "END:VCARD");
    CardEntriesLayout(u);
    PortfolioEntriesLayout(u);
    LiteralPrefix(Header(u), ContactLines(u), SocialPresent(u), NotesPresent(u), "END:VCARD");
  }

  /** No bio, no social link, no list and no (or zero) years. */
  predicate NoExtras(u: User) {
    && !u.bio.Truthy() && !u.linkedin.Truthy() && !u.github.Truthy()
    && !u.instagram.Truthy() && !u.twitter.Truthy()
    && u.skills.None? && (u.years_of_experience.None? || u.years_of_experience.value == 0)
    && u.specializations.None? && u.languages.None? && u.certifications.None? && u.awards.None?
  }

  /** Without extras the two "save contact" actions produce the same text;
      with any extra the long card has more lines. */
  lemma SameTextWithoutExtras(u: User)
    ensures NoExtras(u) ==> PortfolioText(u) == CardText(u)
    ensures !NoExtras(u) ==> |PortfolioEntries(u)| > |CardEntries(u)|
  {
    CardEntriesLayout(u);
    PortfolioEntriesLayout(u);
    if NoExtras(u) {
      assert SocialPresent(u) == [] && NotesPresent(u) == [];
      assert PortfolioLines(u) == CardLines(u);
    }
  }

  lemma InBody(x: string, h: seq<string>, c: seq<string>, s: seq<string>, n: seq<string>, last: string)
    requires x in n
    ensures x in h + (c + s + n) + [last]
  {
  }

  /** A present but empty list still emits its NOTE line. */
  lemma EmptySkillsStillNoted(u: User)
    requires u.skills == Some([])
    ensures "NOTE:" + "Compétences" + ": " in PortfolioEntries(u)
  {
    PortfolioEntriesLayout(u);
    var note := "NOTE:" + "Compétences" + ": ";
    assert Join([], ", ") == "";
    assert note + "" == note;
    assert ListNote(u.skills, "Compétences") == note;
    InBody("NOTE:" + "Compétences" + ": ", Header(u), ContactLines(u), SocialPresent(u), NotesPresent(u), "END:VCARD");
  }

  /** Zero years of experience is written exactly as absent years. */
  lemma ZeroYearsAsAbsent(u: User)
    ensures PortfolioText(u.(years_of_experience := Some(0))) == PortfolioText(u.(years_of_experience := None))
  {
    assert PortfolioLiteral(u.(years_of_experience := Some(0))) == PortfolioLiteral(u.(years_of_experience := None));
  }

  /** The page's "save contact" action on the looked-up profile: nothing
      when the lookup found none, else the download of the long text, or the
      `TypeError` of `name.replace` on a non-string name. */
  function HandleSaveContact(user: Option<User>): (r: Export)
    ensures user.None? ==> r == NoExport
    ensures r.Download? <==> user.Some? && user.value.name.Str?
    ensures user.Some? && !user.value.name.Str? ==> r == TypeError
    ensures r.Download? ==> r.text == PortfolioText(user.value) && r.filename == VcfFilename(user.value.name.s)
  {
    match user
    case None => NoExport
    case Some(u) => if u.name.Str? then Download(PortfolioText(u), VcfFilename(u.name.s)) else TypeError
  }

  /** The object the cache holds right after a create (the `{id, message}`
      reply) has no name: saving it from the portfolio page throws, and its
      text would read `FN:undefined`. */
  lemma SaveCreatedReplyThrows(id: Id)
    ensures HandleSaveContact(Some(CreatedResponseBody(id))) == TypeError
    ensures StartsWith(PortfolioText(CreatedResponseBody(id)),
                       "BEGIN:VCARD" + "\n" + "VERSION:3.0" + "\n" + "FN:" + "undefined" + "\n")
  {
    var u := CreatedResponseBody(id);
    PortfolioTextFrame(u);
    var full := "BEGIN:VCARD" + "\n" + "VERSION:3.0" + "\n" + "FN:" + u.name.Text()
                + "\n" + "TITLE:" + u.profession.Text() + "\n";
    var short := "BEGIN:VCARD" + "\n" + "VERSION:3.0" + "\n" + "FN:" + "undefined" + "\n";
    assert short <= full;
  }
}
