/** The profile card: the short vCard it saves, the name of the `.vcf`
    file, and the link it renders for the website. The text follows the
    layout of vCard 3.0 (RFC 2426): ADR (section 3.2.1), TITLE (3.5.1), ORG
    (3.5.5), URL (3.6.8); as the code does, values are not escaped, lines are
    joined with LF and no `N` line is emitted. */
module UserCard {
  import opened Seqs
  import opened JsText
  import opened Profile

  /** The array-literal entry `f ? prefix + f + suffix : ''`. */
  function OptLine(f: Field, prefix: string, suffix: string): string {
    if f.Truthy() then prefix + f.s + suffix else ""
  }

  /** The four lines every card starts with. */
  function Header(u: User): seq<string> {
    ["BEGIN:VCARD", "VERSION:3.0", "FN:" + u.name.Text(), "TITLE:" + u.profession.Text()]
  }

  /** The five optional contact entries, in the order the card lists them;
      each is empty when its property is not truthy. */
  function OptionalLines(u: User): seq<string> {
    [ OptLine(u.company, "ORG:", ""),
      OptLine(u.address, "ADR:;;", ";;;"),
      OptLine(u.email, "EMAIL:", ""),
      OptLine(u.phone, "TEL:", ""),
      OptLine(u.website, "URL:", "") ]
  }

  /** The line list as the card builds it, before empty entries are dropped. */
  function CardLiteral(u: User): seq<string> {
    Header(u) + OptionalLines(u) + ["END:VCARD"]
  }

  /** `filter(Boolean)` on a one-element list. */
  function KeepIfNonEmpty(s: string): seq<string> {
    if s == "" then [] else [s]
  }

  /** `xs.filter(Boolean)` on a list of strings. */
  function KeepNonEmpty(xs: seq<string>): seq<string> {
    if xs == [] then [] else KeepIfNonEmpty(xs[0]) + KeepNonEmpty(xs[1..])
  }

  /** It is the general filter with the `NonEmpty` test. */
  lemma {:induction false} KeepNonEmptyIsFilter(xs: seq<string>)
    ensures KeepNonEmpty(xs) == Filter(xs, NonEmpty)
  {
    if xs != [] {
      KeepNonEmptyIsFilter(xs[1..]);
    }
  }

  lemma {:induction false} KeepConcat(a: seq<string>, b: seq<string>)
    ensures KeepNonEmpty(a + b) == KeepNonEmpty(a) + KeepNonEmpty(b)
  {
    if a == [] {
      assert a + b == b;
    } else {
      assert (a + b)[1..] == a[1..] + b;
      KeepConcat(a[1..], b);
    }
  }

  lemma KeepOne(x: string)
    ensures KeepNonEmpty([x]) == KeepIfNonEmpty(x)
  {
    assert [x][1..] == [];
  }

  lemma KeepFive(a: string, b: string, c: string, d: string, e: string)
    ensures KeepNonEmpty([a, b, c, d, e]) == KeepIfNonEmpty(a) + KeepIfNonEmpty(b)
      + KeepIfNonEmpty(c) + KeepIfNonEmpty(d) + KeepIfNonEmpty(e)
  {
    assert [a, b, c, d, e] == [a] + [b] + [c] + [d] + [e];
    KeepConcat([a] + [b] + [c] + [d], [e]);
    KeepConcat([a] + [b] + [c], [d]);
    KeepConcat([a] + [b], [c]);
    KeepConcat([a], [b]);
    KeepOne(a); KeepOne(b); KeepOne(c); KeepOne(d); KeepOne(e);
  }

  /** The lines the card emits. */
  function CardEntries(u: User): seq<string> {
    KeepNonEmpty(CardLiteral(u))
  }

  /** The vCard text: the emitted lines joined by LF. */
  function CardText(u: User): string {
    Join(CardEntries(u), "\n")
  }

  /** Reference layout: a one-line list when the field is truthy, else none. */
  function IfPresent(f: Field, prefix: string, suffix: string): (r: seq<string>)
    ensures |r| == if f.Truthy() then 1 else 0
  {
    if f.Truthy() then [prefix + f.s + suffix] else []
  }

  /** ORG, ADR, EMAIL, TEL and URL, in this order, each only when present. */
  function ContactLines(u: User): seq<string> {
    IfPresent(u.company, "ORG:", "") + IfPresent(u.address, "ADR:;;", ";;;")
    + IfPresent(u.email, "EMAIL:", "") + IfPresent(u.phone, "TEL:", "")
    + IfPresent(u.website, "URL:", "")
  }

  function Count(b: bool): nat {
    if b then 1 else 0
  }

  /** How many of the five optional contact properties are truthy. */
  function ContactCount(u: User): nat {
    Count(u.company.Truthy()) + Count(u.address.Truthy()) + Count(u.email.Truthy())
    + Count(u.phone.Truthy()) + Count(u.website.Truthy())
  }

  /** The card in reference form: header, present contact lines, END. */
  function CardLines(u: User): (r: seq<string>)
    ensures |r| == 5 + ContactCount(u)
    ensures r[..4] == Header(u) && r[|r| - 1] == "END:VCARD"
  {
    Header(u) + ContactLines(u) + ["END:VCARD"]
  }

  lemma KeepHeader(u: User)
    ensures KeepNonEmpty(Header(u)) == Header(u)
  {
    var h := Header(u);
    assert h == [h[0]] + [h[1]] + [h[2]] + [h[3]];
    KeepConcat([h[0]] + [h[1]] + [h[2]], [h[3]]);
    KeepConcat([h[0]] + [h[1]], [h[2]]);
    KeepConcat([h[0]], [h[1]]);
    KeepOne(h[0]); KeepOne(h[1]); KeepOne(h[2]); KeepOne(h[3]);
  }

  /** An optional entry is kept exactly when its property is truthy. */
  lemma KeepOptLine(f: Field, prefix: string, suffix: string)
    requires prefix != ""
    ensures KeepIfNonEmpty(OptLine(f, prefix, suffix)) == IfPresent(f, prefix, suffix)
  {
    if f.Truthy() {
      assert (prefix + f.s + suffix)[0] == prefix[0];
    }
  }

  /** Filtering the five optional entries keeps those whose property is
      truthy. */
  lemma KeepOptionalLines(u: User)
    ensures KeepNonEmpty(OptionalLines(u)) == ContactLines(u)
  {
    KeepFive(OptLine(u.company, "ORG:", ""), OptLine(u.address, "ADR:;;", ";;;"),
             OptLine(u.email, "EMAIL:", ""), OptLine(u.phone, "TEL:", ""),
             OptLine(u.website, "URL:", ""));
    KeepOptLine(u.company, "ORG:", "");
    KeepOptLine(u.address, "ADR:;;", ";;;");
    KeepOptLine(u.email, "EMAIL:", "");
    KeepOptLine(u.phone, "TEL:", "");
    KeepOptLine(u.website, "URL:", "");
  }

  /** The card emits BEGIN, VERSION, FN, TITLE, then ORG, ADR, EMAIL, TEL and
      URL in that order, each exactly when its property is truthy, then END;
      so it has 5 lines plus one per truthy contact property. */
  lemma CardEntriesLayout(u: User)
    ensures CardEntries(u) == CardLines(u)
    ensures |CardEntries(u)| == 5 + ContactCount(u)
  {
    KeepConcat(Header(u) + OptionalLines(u), ["END:VCARD"]);
    KeepConcat(Header(u), OptionalLines(u));
    KeepHeader(u);
    KeepOptionalLines(u);
    KeepOne("END:VCARD");
  }

  lemma JoinFour(a: string, b: string, c: string, d: string, sep: string)
    ensures Join([a, b, c, d], sep) == a + sep + b + sep + c + sep + d
  {
    assert [c, d][1..] == [d];
    assert Join([c, d], sep) == c + sep + d;
    assert [b, c, d][1..] == [c, d];
    assert Join([b, c, d], sep) == b + sep + (c + sep + d);
    assert [a, b, c, d][1..] == [b, c, d];
  }

  /** Joined lines made of a four-line head, some middle lines and a last
      line: the text starts with the head lines, each followed by the
      separator, and ends with a separator and the last line. */
  lemma {:induction false} JoinFrame(h: seq<string>, c: seq<string>, last: string, sep: string)
    requires |h| >= 1
    ensures StartsWith(Join(h + c + [last], sep), Join(h, sep) + sep)
    ensures EndsWith(Join(h + c + [last], sep), sep + last)
  {
    assert h + c + [last] == h + (c + [last]);
    JoinConcat(h, c + [last], sep);
    JoinConcat(h + c, [last], sep);
    var body := Join(h + c, sep);
    assert Join(h + c + [last], sep) == body + (sep + last);
  }

  /** The header lines joined by LF. */
  lemma HeaderText(u: User)
    ensures Join(Header(u), "\n") + "\n" == "BEGIN:VCARD" + "\n" + "VERSION:3.0" + "\n" + "FN:" + u.name.Text()
                                         + "\n" + "TITLE:" + u.profession.Text() + "\n"
  {
    JoinFour("BEGIN:VCARD", "VERSION:3.0", "FN:" + u.name.Text(), "TITLE:" + u.profession.Text(), "\n");
  }

  /** The text is the reference lines joined by LF. */
  lemma CardTextIsJoinedLines(u: User)
    ensures CardText(u) == Join(CardLines(u), "\n")
  {
    CardEntriesLayout(u);
  }

  /** The text starts with the BEGIN, VERSION, FN and TITLE lines and ends
      with the END line, with no trailing newline. */
  lemma CardTextFrame(u: User)
    ensures StartsWith(CardText(u), "BEGIN:VCARD" + "\n" + "VERSION:3.0" + "\n" + "FN:" + u.name.Text()
                                    + "\n" + "TITLE:" + u.profession.Text() + "\n")
    ensures EndsWith(CardText(u), "\n" + "END:VCARD")
  {
    CardTextIsJoinedLines(u);
    JoinFrame(Header(u), ContactLines(u), "END:VCARD", "\n");
    HeaderText(u);
  }

  /** The property values the card writes contain no line feed. */
  predicate CardValuesOnOneLine(u: User) {
    && Excludes(u.name.Text(), '\n') && Excludes(u.profession.Text(), '\n')
    && (u.company.Str? ==> Excludes(u.company.s, '\n'))
    && (u.address.Str? ==> Excludes(u.address.s, '\n'))
    && (u.email.Str? ==> Excludes(u.email.s, '\n'))
    && (u.phone.Str? ==> Excludes(u.phone.s, '\n'))
    && (u.website.Str? ==> Excludes(u.website.s, '\n'))
  }

  predicate NoLineFeeds(xs: seq<string>) {
    forall i :: 0 <= i < |xs| ==> Excludes(xs[i], '\n')
  }

  lemma NoLineFeedsConcat(a: seq<string>, b: seq<string>)
    requires NoLineFeeds(a) && NoLineFeeds(b)
    ensures NoLineFeeds(a + b)
  {
  }

  lemma ExcludesConcat(a: string, b: string, c: char)
    requires Excludes(a, c) && Excludes(b, c)
    ensures Excludes(a + b, c)
  {
  }

  lemma PresentOnOneLine(f: Field, prefix: string, suffix: string)
    requires f.Str? ==> Excludes(f.s, '\n')
    requires Excludes(prefix, '\n') && Excludes(suffix, '\n')
    ensures NoLineFeeds(IfPresent(f, prefix, suffix))
  {
    if f.Truthy() {
      ExcludesConcat(prefix, f.s, '\n');
      ExcludesConcat(prefix + f.s, suffix, '\n');
    }
  }

  lemma HeaderOnOneLine(u: User)
    requires Excludes(u.name.Text(), '\n') && Excludes(u.profession.Text(), '\n')
    ensures NoLineFeeds(Header(u))
  {
    ExcludesConcat("FN:", u.name.Text(), '\n');
    ExcludesConcat("TITLE:", u.profession.Text(), '\n');
  }

  /** When no value contains a line feed, splitting the text at line feeds
      gives back exactly the emitted lines (values are not escaped, so this
      is the only case in which it does). */
  lemma CardTextLines(u: User)
    requires CardValuesOnOneLine(u)
    ensures Split(CardText(u), '\n') == CardLines(u)
  {
    CardEntriesLayout(u);
    CardLinesOnOneLine(u);
    SplitJoin(CardLines(u), '\n');
  }

  /** Every emitted line is free of line feeds when every value is. */
  lemma CardLinesOnOneLine(u: User)
    requires CardValuesOnOneLine(u)
    ensures NoLineFeeds(CardLines(u))
  {
    HeaderOnOneLine(u);
    PresentOnOneLine(u.company, "ORG:", "");
    PresentOnOneLine(u.address, "ADR:;;", ";;;");
    PresentOnOneLine(u.email, "EMAIL:", "");
    PresentOnOneLine(u.phone, "TEL:", "");
    PresentOnOneLine(u.website, "URL:", "");
    var c1 := IfPresent(u.company, "ORG:", "") + IfPresent(u.address, "ADR:;;", ";;;");
    NoLineFeedsConcat(IfPresent(u.company, "ORG:", ""), IfPresent(u.address, "ADR:;;", ";;;"));
    var c2 := c1 + IfPresent(u.email, "EMAIL:", "");
    NoLineFeedsConcat(c1, IfPresent(u.email, "EMAIL:", ""));
    var c3 := c2 + IfPresent(u.phone, "TEL:", "");
    NoLineFeedsConcat(c2, IfPresent(u.phone, "TEL:", ""));
    NoLineFeedsConcat(c3, IfPresent(u.website, "URL:", ""));
    NoLineFeedsConcat(Header(u), ContactLines(u));
    NoLineFeedsConcat(Header(u) + ContactLines(u), ["END:VCARD"]);
  }

  /** A profile with none of the optional contact properties saves as the
      five lines BEGIN, VERSION, FN, TITLE, END. */
  lemma MinimalCardHasFiveLines(u: User)
    requires !u.company.Truthy() && !u.address.Truthy() && !u.email.Truthy()
    requires !u.phone.Truthy() && !u.website.Truthy()
    requires Excludes(u.name.Text(), '\n') && Excludes(u.profession.Text(), '\n')
    ensures Split(CardText(u), '\n')
      == ["BEGIN:VCARD", "VERSION:3.0", "FN:" + u.name.Text(), "TITLE:" + u.profession.Text(), "END:VCARD"]
  {
    CardTextLines(u);
  }

  /** The download name: whitespace runs of the name become `_`, then `.vcf`. */
  function VcfFilename(name: string): (r: string)
    ensures HasNoSpace(r)
    ensures |r| >= 4 && r[|r| - 4..] == ".vcf"
    ensures r[..|r| - 4] == ReplaceSpaceRuns(name)
    ensures HasNoSpace(name) ==> r[..|r| - 4] == name
  {
    ReplaceSpaceRuns(name) + ".vcf"
  }

  /** Result of a "save contact" action. */
  datatype Export =
    | NoExport                                  // nothing happens
    | Download(text: string, filename: string)  // a `.vcf` file is offered
    | TypeError                                 // `name.replace` on a non-string throws

  /** The card's "save contact" action: the text never fails to build, but
      the file name calls `replace` on the name, which throws unless the
      name is a string. */
  function SaveContact(u: User): (r: Export)
    ensures r.Download? <==> u.name.Str?
    ensures !u.name.Str? ==> r == TypeError
    ensures r.Download? ==> r.text == CardText(u) && r.filename == VcfFilename(u.name.s)
  {
    if u.name.Str? then Download(CardText(u), VcfFilename(u.name.s)) else TypeError
  }

  /** The website link: kept when it starts with `http`, else `https://` is
      put in front. */
  function WebsiteHref(w: string): string {
    if StartsWith(w, "http") then w else "https://" + w
  }

  /** The link always starts with `http`, is the website itself exactly when
      that already starts with `http`, and normalising twice changes
      nothing. */
  lemma WebsiteHrefNormal(w: string)
    ensures StartsWith(WebsiteHref(w), "http")
    ensures WebsiteHref(w) == w <==> StartsWith(w, "http")
    ensures WebsiteHref(WebsiteHref(w)) == WebsiteHref(w)
  {
    var h := WebsiteHref(w);
    if !StartsWith(w, "http") {
      assert h[..4] == "http";
      assert |h| > |w|;
    }
  }
}
