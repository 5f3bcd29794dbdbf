/** The administration console: the PostgreSQL array literals it sends for
    string lists, the comma-separated list inputs, the blank-entry filters
    applied before a profile is submitted, the required-field gate, the
    search over the cached profiles, the structured-list editor and the
    submit, edit and delete handlers. */
module Admin {
  import opened Seqs
  import opened JsText
  import opened Profile
  import opened UserContext

  // ---------------------------------------------------------------------
  // PostgreSQL array literals

  /** `item.replace(/"/g, '\\"')`: a backslash goes in front of every double
      quote; nothing else (a backslash in particular) is escaped. */
  function EscapeQuotes(s: string): (r: string)
    ensures |r| >= |s|
    ensures Excludes(s, '"') ==> r == s
  {
    if s == [] then []
    else (if s[0] == '"' then ['\\', '"'] else [s[0]]) + EscapeQuotes(s[1..])
  }

  /** One element of the literal: the escaped item between double quotes. */
  function Quoted(item: string): string {
    "\"" + EscapeQuotes(item) + "\""
  }

  function QuotedAll(items: seq<string>): (r: seq<string>)
    ensures |r| == |items|
    ensures forall i :: 0 <= i < |items| ==> r[i] == Quoted(items[i])
  {
    seq(|items|, i requires 0 <= i < |items| => Quoted(items[i]))
  }

  /** `formatArrayForPostgres`: `{}` for an absent or empty list, otherwise
      the quoted items joined by commas between braces. */
  function FormatArrayForPostgres(arr: Option<seq<string>>): (r: string)
    ensures r == "{}" <==> arr == None || arr.value == []
    ensures |r| >= 2 && r[0] == '{' && r[|r| - 1] == '}'
  {
    if arr == None || arr.value == [] then "{}"
    else
      var q := QuotedAll(arr.value);
      assert |Join(q, ",")| >= |q[0]|;
      "{" + Join(q, ",") + "}"
  }

  /** How PostgreSQL reads the body of a double-quoted array element, from
      just after its opening quote: a backslash takes the next character
      literally and an unescaped quote closes the element. The result is
      the element's text and what follows the closing quote. */
  function ReadQuoted(s: string): (r: Option<(string, string)>)
    ensures r.Some? ==> |r.value.1| < |s|
  {
    if s == [] then None
    else if s[0] == '"' then Some(("", s[1..]))
    else if s[0] == '\\' then
      if |s| < 2 then None
      else match ReadQuoted(s[2..])
        case None => None
        case Some((text, rest)) => Some(([s[1]] + text, rest))
    else match ReadQuoted(s[1..])
      case None => None
      case Some((text, rest)) => Some(([s[0]] + text, rest))
  }

  /** The quoted elements of an array literal, from just after `{`: each is
      followed by `,` and another element, or by the closing `}`. */
  function ReadElements(s: string): Option<seq<string>>
    decreases |s|
  {
    if s == [] || s[0] != '"' then None
    else match ReadQuoted(s[1..])
      case None => None
      case Some((text, rest)) =>
        if rest == "}" then Some([text])
        else if rest != [] && rest[0] == ',' then
          match ReadElements(rest[1..])
          case None => None
          case Some(more) => Some([text] + more)
        else None
  }

  /** The array literal read back as a list of strings, for literals whose
      elements are all quoted, as the encoder writes them. */
  function ParseArray(s: string): Option<seq<string>> {
    if s == "{}" then Some([])
    else if |s| >= 2 && s[0] == '{' then ReadElements(s[1..])
    else None
  }

  /** An ordinary character is read as itself. */
  lemma ReadPlain(c: char, t: string, text: string, rest: string)
    requires c != '"' && c != '\\'
    requires ReadQuoted(t) == Some((text, rest))
    ensures ReadQuoted([c] + t) == Some(([c] + text, rest))
  {
    assert ([c] + t)[1..] == t;
  }

  /** A backslash and the character after it are read as that character. */
  lemma ReadBackslashed(c: char, t: string, text: string, rest: string)
    requires ReadQuoted(t) == Some((text, rest))
    ensures ReadQuoted(['\\', c] + t) == Some(([c] + text, rest))
  {
    assert (['\\', c] + t)[2..] == t;
  }

  /** One character of an escaped item is read back ahead of the rest. */
  lemma ReadEscapedStep(x: string, rest: string)
    requires x != [] && x[0] != '\\'
    requires ReadQuoted(EscapeQuotes(x[1..]) + "\"" + rest) == Some((x[1..], rest))
    ensures ReadQuoted(EscapeQuotes(x) + "\"" + rest) == Some((x, rest))
  {
    var e := EscapeQuotes(x[1..]);
    var head: string := if x[0] == '"' then ['\\', '"'] else [x[0]];
    assert EscapeQuotes(x) == head + e;
    Regroup(head, e, rest);
    if x[0] == '"' {
      ReadBackslashed('"', e + "\"" + rest, x[1..], rest);
    } else {
      ReadPlain(x[0], e + "\"" + rest, x[1..], rest);
    }
    assert [x[0]] + x[1..] == x;
  }

  lemma Regroup(head: string, e: string, rest: string)
    ensures head + e + "\"" + rest == head + (e + "\"" + rest)
  {
  }

  /** An item without backslashes, its quotes escaped, is read back as
      itself up to the closing quote. */
  lemma {:induction false} ReadEscaped(x: string, rest: string)
    requires Excludes(x, '\\')
    ensures ReadQuoted(EscapeQuotes(x) + "\"" + rest) == Some((x, rest))
  {
    if x == [] {
      assert EscapeQuotes(x) + "\"" + rest == "\"" + rest;
    } else {
      assert Excludes(x[1..], '\\') by {
        assert forall i :: 0 <= i < |x[1..]| ==> x[1..][i] == x[i + 1];
      }
      ReadEscaped(x[1..], rest);
      ReadEscapedStep(x, rest);
    }
  }

  /** An element followed by the closing brace ends the list; one followed
      by a comma is followed by the rest of the list. */
  lemma ReadLast(body: string, text: string)
    requires ReadQuoted(body) == Some((text, "}"))
    ensures ReadElements("\"" + body) == Some([text])
  {
    assert ("\"" + body)[1..] == body;
  }

  lemma ReadNext(body: string, text: string, more: string, items: seq<string>)
    requires ReadQuoted(body) == Some((text, "," + more))
    requires ReadElements(more) == Some(items)
    ensures ReadElements("\"" + body) == Some([text] + items)
  {
    assert ("\"" + body)[1..] == body;
    assert ("," + more)[1..] == more;
  }

  lemma {:induction false} ReadQuotedAll(xs: seq<string>)
    requires |xs| >= 1
    requires forall i :: 0 <= i < |xs| ==> Excludes(xs[i], '\\')
    ensures ReadElements(Join(QuotedAll(xs), ",") + "}") == Some(xs)
  {
    var q := QuotedAll(xs);
    var body := EscapeQuotes(xs[0]) + "\"";
    if |xs| == 1 {
      assert Join(q, ",") + "}" == "\"" + (body + "}");
      ReadEscaped(xs[0], "}");
      ReadLast(body + "}", xs[0]);
      assert [xs[0]] == xs;
    } else {
      var more := Join(q[1..], ",") + "}";
      assert Join(q, ",") + "}" == "\"" + (body + ("," + more));
      ReadEscaped(xs[0], "," + more);
      assert QuotedAll(xs[1..]) == q[1..];
      ReadQuotedAll(xs[1..]);
      ReadNext(body + ("," + more), xs[0], more, xs[1..]);
      assert [xs[0]] + xs[1..] == xs;
    }
  }

  /** PostgreSQL reads back the items of the literal, provided no item
      contains a backslash. */
  lemma FormatThenParse(xs: seq<string>)
    requires forall i :: 0 <= i < |xs| ==> Excludes(xs[i], '\\')
    ensures ParseArray(FormatArrayForPostgres(Some(xs))) == Some(xs)
  {
    if xs != [] {
      var s := FormatArrayForPostgres(Some(xs));
      assert s[1..] == Join(QuotedAll(xs), ",") + "}";
      ReadQuotedAll(xs);
    }
  }

  /** Without the condition the round trip fails: a backslash in an item
      escapes the character after it, so `a\b` is stored as `ab`. */
  lemma BackslashDropped()
    ensures FormatArrayForPostgres(Some(["a\\b"])) == "{\"a\\b\"}"
    ensures ParseArray("{\"a\\b\"}") == Some(["ab"])
  {
    BackslashItemFormatted();
    BackslashItemRead();
    assert "{\"a\\b\"}"[1..] == "\"a\\b\"}";
    assert "\"a\\b\"}"[1..] == "a\\b\"}";
  }

  lemma BackslashItemFormatted()
    ensures FormatArrayForPostgres(Some(["a\\b"])) == "{\"a\\b\"}"
  {
    assert EscapeQuotes("b") == "b";
    assert EscapeQuotes("\\b") == "\\b";
    assert EscapeQuotes("a\\b") == "a\\b";
    var q := QuotedAll(["a\\b"]);
    assert q[0] == "\"a\\b\"";
    assert Join(q, ",") == "\"a\\b\"";
    assert "{" + "\"a\\b\"" + "}" == "{\"a\\b\"}";
  }

  lemma BackslashItemRead()
    ensures ReadQuoted("a\\b\"}") == Some(("ab", "}"))
  {
    assert ReadQuoted("\"}") == Some(("", "}"));
    ReadBackslashed('b', "\"}", "", "}");
    assert ['\\', 'b'] + "\"}" == "\\b\"}";
    assert ['b'] + "" == "b";
    ReadPlain('a', "\\b\"}", "b", "}");
    assert ['a'] + "\\b\"}" == "a\\b\"}";
    assert ['a'] + "b" == "ab";
  }

  /** An item ending in a backslash escapes its own closing quote, and the
      literal can no longer be read. */
  lemma TrailingBackslashUnreadable()
    ensures FormatArrayForPostgres(Some(["\\"])) == "{\"\\\"}"
    ensures ParseArray("{\"\\\"}") == None
  {
    assert EscapeQuotes("\\") == "\\";
    assert ReadQuoted("}") == None;
    assert ReadQuoted("\\\"}") == None;
  }

  // ---------------------------------------------------------------------
  // Comma-separated list inputs

  function TrimAll(xs: seq<string>): (r: seq<string>)
    ensures |r| == |xs|
    ensures forall i :: 0 <= i < |xs| ==> r[i] == Trim(xs[i])
  {
    seq(|xs|, i requires 0 <= i < |xs| => Trim(xs[i]))
  }

  /** A list input's change handler: an empty input gives the empty list,
      otherwise the input is split at commas, each piece trimmed and the
      empty pieces dropped. */
  function ParseListInput(v: string): (r: seq<string>)
    ensures v == "" ==> r == []
    ensures forall i :: 0 <= i < |r| ==> r[i] != ""
  {
    if v == "" then [] else Filter(TrimAll(Split(v, ',')), NonEmpty)
  }

  /** The value a list input shows: the items joined by `", "`, or the
      empty string when the list is absent. */
  function DisplayList(xs: Option<seq<string>>): string {
    match xs
    case None => ""
    case Some(items) => Join(items, ", ")
  }

  /** A string whose trim is itself and which is not empty stays the same
      when trimmed; trimming is idempotent. */
  lemma TrimTwice(s: string)
    ensures Trim(Trim(s)) == Trim(s)
  {
    var t := TrimStart(s);
    var r := TrimEnd(t);
    if r != [] {
      assert r[0] == t[0];
      TrimFixpoint(r);
    }
  }

  lemma {:induction false} SplitPiecesExclude(s: string, c: char)
    ensures forall i :: 0 <= i < |Split(s, c)| ==> Excludes(Split(s, c)[i], c)
  {
    if s != [] {
      SplitPiecesExclude(s[1..], c);
    }
  }

  /** Trimming a piece without `c` gives a trimmed text without `c`. */
  lemma TrimKeepsExcluded(p: string, c: char)
    requires Excludes(p, c)
    ensures Trim(Trim(p)) == Trim(p) && Excludes(Trim(p), c)
  {
    TrimTwice(p);
    var t := TrimStart(p);
    var item := TrimEnd(t);
    assert t == p[|p| - |t|..];
    assert item == t[..|item|];
    forall k | 0 <= k < |item|
      ensures item[k] != c
    {
      assert item[k] == t[k];
      assert t[k] == p[|p| - |t| + k];
    }
  }

  /** Every parsed item is trimmed, not empty and free of commas. */
  lemma ParsedItems(v: string)
    ensures forall i :: 0 <= i < |ParseListInput(v)| ==>
      var item := ParseListInput(v)[i];
      item != "" && Trim(item) == item && Excludes(item, ',')
  {
    if v != "" {
      var pieces := Split(v, ',');
      var trimmed := TrimAll(pieces);
      SplitPiecesExclude(v, ',');
      FilterMembers(trimmed, NonEmpty);
      forall i | 0 <= i < |ParseListInput(v)|
        ensures Trim(ParseListInput(v)[i]) == ParseListInput(v)[i]
        ensures Excludes(ParseListInput(v)[i], ',')
      {
        var item := ParseListInput(v)[i];
        assert item in trimmed;
        var j :| 0 <= j < |trimmed| && trimmed[j] == item;
        TrimKeepsExcluded(pieces[j], ',');
      }
    }
  }

  /** The pieces of a displayed list: the first item, then each later item
      behind the space that followed its comma. */
  lemma {:induction false} DisplayedPieces(xs: seq<string>)
    requires xs != []
    requires forall i :: 0 <= i < |xs| ==> Excludes(xs[i], ',')
    ensures Split(DisplayList(Some(xs)), ',') == [xs[0]] + Padded(" ", xs[1..])
  {
    var pieces := [xs[0]] + Padded(" ", xs[1..]);
    JoinPadded(xs, ',', " ");
    assert [','] + " " == ", ";
    forall i | 0 <= i < |pieces|
      ensures Excludes(pieces[i], ',')
    {
      if i > 0 {
        assert pieces[i] == " " + xs[i];
      }
    }
    SplitJoin(pieces, ',');
  }

  lemma {:induction false} TrimPieces(xs: seq<string>)
    requires xs != []
    requires forall i :: 0 <= i < |xs| ==> xs[i] != "" && Trim(xs[i]) == xs[i]
    ensures TrimAll([xs[0]] + Padded(" ", xs[1..])) == xs
  {
    var pieces := [xs[0]] + Padded(" ", xs[1..]);
    var trimmed := TrimAll(pieces);
    forall i | 0 <= i < |xs|
      ensures trimmed[i] == xs[i]
    {
      PieceTrimmed(xs, pieces, i);
    }
    assert |trimmed| == |xs|;
  }

  /** One displayed piece trims back to its item. */
  lemma PieceTrimmed(xs: seq<string>, pieces: seq<string>, i: nat)
    requires i < |xs| && xs[i] != "" && Trim(xs[i]) == xs[i]
    requires pieces == [xs[0]] + Padded(" ", xs[1..])
    ensures Trim(pieces[i]) == xs[i]
  {
    if i == 0 {
      assert pieces[0] == xs[0];
    } else {
      assert pieces[i] == " " + xs[1..][i - 1];
      assert xs[1..][i - 1] == xs[i];
      TrimSpaced(xs[i]);
    }
  }

  /** The space the display puts after a comma is trimmed away again. */
  lemma TrimSpaced(x: string)
    requires x != "" && Trim(x) == x
    ensures Trim(" " + x) == x
  {
    TrimAfterSpace(" ", x);
  }

  /** Displaying a list of trimmed, non-empty, comma-free items and parsing
      the displayed text gives the list back. */
  lemma DisplayThenParse(xs: seq<string>)
    requires forall i :: 0 <= i < |xs| ==> xs[i] != "" && Trim(xs[i]) == xs[i] && Excludes(xs[i], ',')
    ensures ParseListInput(DisplayList(Some(xs))) == xs
  {
    if xs != [] {
      DisplayedPieces(xs);
      TrimPieces(xs);
      assert DisplayList(Some(xs)) != "" by {
        assert |Join(xs, ", ")| >= |xs[0]|;
      }
      FilterKeepsAll(xs, NonEmpty);
    }
  }

  // ---------------------------------------------------------------------
  // Blank entries dropped before a new profile is submitted

  /** `s.trim()` is truthy. */
  predicate Filled(s: string) {
    Trim(s) != ""
  }

  /** `xs?.filter(s => s.trim()) || []`. */
  function KeepFilled(xs: Option<seq<string>>): (r: seq<string>)
    ensures forall i :: 0 <= i < |r| ==> Filled(r[i])
    ensures xs == None ==> r == []
  {
    if xs == None then [] else Filter(xs.value, Filled)
  }

  /** The filter keeps exactly the entries whose trim is not empty, in
      their order. */
  lemma KeepFilledSelects(xs: seq<string>)
    ensures SelectsInOrder(xs, KeepFilled(Some(xs)), Filled)
  {
    FilterIsSubsequence(xs, Filled);
  }

  /** Items parsed from a list input are never dropped by the filter. */
  lemma ParsedItemsAreKept(v: string)
    ensures KeepFilled(Some(ParseListInput(v))) == ParseListInput(v)
  {
    ParsedItems(v);
    FilterKeepsAll(ParseListInput(v), Filled);
  }

  /** Every record carries the field `key`. */
  predicate AllHave(rs: seq<Record>, key: string) {
    forall i :: 0 <= i < |rs| ==> key in rs[i]
  }

  /** The filter callback `p => p[key].trim()`, for records that carry `key`. */
  function Titled(key: string): Record -> bool {
    rec => key in rec && Filled(rec[key])
  }

  /** `rs.filter(p => p[key].trim())`: reading the field of a record that
      lacks it gives `undefined`, whose `trim` throws. */
  function FilterTitled(rs: seq<Record>, key: string): (r: Eval<seq<Record>>)
    ensures r.Returns? <==> AllHave(rs, key)
    ensures r.Returns? ==> r.value == Filter(rs, Titled(key))
  {
    if rs == [] then Returns([])
    else if key !in rs[0] then Throws
    else match FilterTitled(rs[1..], key)
      case Throws => Throws
      case Returns(kept) => Returns((if Filled(rs[0][key]) then [rs[0]] else []) + kept)
  }

  /** `rs?.filter(p => p[key].trim()) || []`. */
  function KeepTitled(rs: Option<seq<Record>>, key: string): (r: Eval<seq<Record>>)
    ensures rs == None ==> r == Returns([])
    ensures rs != None ==> (r.Returns? <==> AllHave(rs.value, key))
  {
    if rs == None then Returns([]) else FilterTitled(rs.value, key)
  }

  /** When it does not throw, the structured-list filter keeps exactly the
      records whose `key` field is not blank, in their order. */
  lemma KeepTitledSelects(rs: seq<Record>, key: string)
    requires AllHave(rs, key)
    ensures KeepTitled(Some(rs), key).Returns?
    ensures SelectsInOrder(rs, KeepTitled(Some(rs), key).value, Titled(key))
  {
    FilterIsSubsequence(rs, Titled(key));
  }

  // ---------------------------------------------------------------------
  // Payloads

  /** Whether every present structured list of the form carries the field
      its submit filter reads (`title`, or `degree` for education). */
  predicate StructuredListsKeyed(form: User) {
    && (form.personal_projects != None ==> AllHave(form.personal_projects.value, "title"))
    && (form.previous_positions != None ==> AllHave(form.previous_positions.value, "title"))
    && (form.education != None ==> AllHave(form.education.value, "degree"))
    && (form.projects != None ==> AllHave(form.projects.value, "title"))
  }

  /** The payload `handleAddUser` hands to `addUser`: the form with blank
      entries dropped, the string lists as PostgreSQL literals and the
      structured lists as JSON text. The filters run in the order the
      object literal lists them; the first that throws aborts. */
  function AddPayload(form: User): (r: Eval<Payload>)
    ensures r.Returns? <==> StructuredListsKeyed(form)
    ensures r.Returns? ==> r.value.form == form
    ensures r.Returns? ==> r.value.skills == FormatArrayForPostgres(Some(KeepFilled(form.skills)))
    ensures r.Returns? ==> r.value.specializations == FormatArrayForPostgres(Some(KeepFilled(form.specializations)))
    ensures r.Returns? ==> r.value.languages == FormatArrayForPostgres(Some(KeepFilled(form.languages)))
    ensures r.Returns? ==> r.value.certifications == FormatArrayForPostgres(Some(KeepFilled(form.certifications)))
    ensures r.Returns? ==> r.value.awards == FormatArrayForPostgres(Some(KeepFilled(form.awards)))
    ensures r.Returns? ==> r.value.personal_projects == Stringified(KeepTitled(form.personal_projects, "title").value)
    ensures r.Returns? ==> r.value.previous_positions == Stringified(KeepTitled(form.previous_positions, "title").value)
    ensures r.Returns? ==> r.value.education == Stringified(KeepTitled(form.education, "degree").value)
    ensures r.Returns? ==> r.value.projects == Stringified(KeepTitled(form.projects, "title").value)
  {
    var personal := KeepTitled(form.personal_projects, "title");
    var positions := KeepTitled(form.previous_positions, "title");
    var education := KeepTitled(form.education, "degree");
    var projects := KeepTitled(form.projects, "title");
    if personal.Throws? || positions.Throws? || education.Throws? || projects.Throws? then Throws
    else
      Returns(Payload(form,
        FormatArrayForPostgres(Some(KeepFilled(form.skills))),
        FormatArrayForPostgres(Some(KeepFilled(form.specializations))),
        FormatArrayForPostgres(Some(KeepFilled(form.languages))),
        FormatArrayForPostgres(Some(KeepFilled(form.certifications))),
        FormatArrayForPostgres(Some(KeepFilled(form.awards))),
        Stringified(personal.value), Stringified(positions.value),
        Stringified(education.value), Stringified(projects.value)))
  }

  /** `xs || []` for a list property. */
  function OrEmpty<T>(xs: Option<seq<T>>): (r: seq<T>)
    ensures xs != None ==> r == xs.value
    ensures xs == None ==> r == []
  {
    if xs == None then [] else xs.value
  }

  /** The payload `handleUpdateUser` hands to `updateUser`: nothing is
      filtered, absent lists become empty ones. */
  function UpdatePayload(u: User): (r: Payload)
    ensures r.form == u
    ensures r.skills == FormatArrayForPostgres(u.skills)
    ensures r.specializations == FormatArrayForPostgres(u.specializations)
    ensures r.languages == FormatArrayForPostgres(u.languages)
    ensures r.certifications == FormatArrayForPostgres(Some(OrEmpty(u.certifications)))
    ensures r.awards == FormatArrayForPostgres(Some(OrEmpty(u.awards)))
    ensures r.personal_projects == Stringified(OrEmpty(u.personal_projects))
    ensures r.previous_positions == Stringified(OrEmpty(u.previous_positions))
    ensures r.education == Stringified(OrEmpty(u.education))
    ensures r.projects == Stringified(OrEmpty(u.projects))
  {
    Payload(u,
      FormatArrayForPostgres(u.skills),
      FormatArrayForPostgres(u.specializations),
      FormatArrayForPostgres(u.languages),
      FormatArrayForPostgres(Some(OrEmpty(u.certifications))),
      FormatArrayForPostgres(Some(OrEmpty(u.awards))),
      Stringified(OrEmpty(u.personal_projects)), Stringified(OrEmpty(u.previous_positions)),
      Stringified(OrEmpty(u.education)), Stringified(OrEmpty(u.projects)))
  }

  predicate NoBackslash(xs: Option<seq<string>>) {
    xs != None ==> forall i :: 0 <= i < |xs.value| ==> Excludes(xs.value[i], '\\')
  }

  lemma KeepFilledNoBackslash(xs: Option<seq<string>>)
    requires NoBackslash(xs)
    ensures NoBackslash(Some(KeepFilled(xs)))
  {
    if xs != None {
      FilterMembers(xs.value, Filled);
    }
  }

  /** The store reads each string list of a new profile back as exactly
      its non-blank entries, when no entry holds a backslash. */
  lemma AddPayloadReadsBack(form: User)
    requires StructuredListsKeyed(form)
    requires NoBackslash(form.skills) && NoBackslash(form.specializations) && NoBackslash(form.languages)
    requires NoBackslash(form.certifications) && NoBackslash(form.awards)
    ensures var p := AddPayload(form).value;
      && ParseArray(p.skills) == Some(KeepFilled(form.skills))
      && ParseArray(p.specializations) == Some(KeepFilled(form.specializations))
      && ParseArray(p.languages) == Some(KeepFilled(form.languages))
      && ParseArray(p.certifications) == Some(KeepFilled(form.certifications))
      && ParseArray(p.awards) == Some(KeepFilled(form.awards))
  {
    KeepFilledNoBackslash(form.skills);
    KeepFilledNoBackslash(form.specializations);
    KeepFilledNoBackslash(form.languages);
    KeepFilledNoBackslash(form.certifications);
    KeepFilledNoBackslash(form.awards);
    FormatThenParse(KeepFilled(form.skills));
    FormatThenParse(KeepFilled(form.specializations));
    FormatThenParse(KeepFilled(form.languages));
    FormatThenParse(KeepFilled(form.certifications));
    FormatThenParse(KeepFilled(form.awards));
  }

  /** Whether a string list is present and has no blank entry. */
  predicate Clean(xs: Option<seq<string>>) {
    xs != None && forall i :: 0 <= i < |xs.value| ==> Filled(xs.value[i])
  }

  /** Whether a structured list is present and every record has a
      non-blank `key`. */
  predicate CleanRecords(rs: Option<seq<Record>>, key: string) {
    rs != None && forall i :: 0 <= i < |rs.value| ==> Titled(key)(rs.value[i])
  }

  lemma CleanListKept(xs: Option<seq<string>>)
    requires Clean(xs)
    ensures Some(KeepFilled(xs)) == xs
  {
    FilterKeepsAll(xs.value, Filled);
  }

  lemma CleanRecordsKept(rs: Option<seq<Record>>, key: string)
    requires CleanRecords(rs, key)
    ensures KeepTitled(rs, key) == Returns(OrEmpty(rs))
  {
    FilterKeepsAll(rs.value, Titled(key));
  }

  /** On a form with every list present and free of blank entries, the
      create payload and the update payload coincide. */
  lemma CleanFormPayloadsAgree(u: User)
    requires Clean(u.skills) && Clean(u.specializations) && Clean(u.languages)
    requires Clean(u.certifications) && Clean(u.awards)
    requires CleanRecords(u.personal_projects, "title") && CleanRecords(u.previous_positions, "title")
    requires CleanRecords(u.education, "degree") && CleanRecords(u.projects, "title")
    ensures AddPayload(u) == Returns(UpdatePayload(u))
  {
    CleanListKept(u.skills);
    CleanListKept(u.specializations);
    CleanListKept(u.languages);
    CleanListKept(u.certifications);
    CleanListKept(u.awards);
    CleanRecordsKept(u.personal_projects, "title");
    CleanRecordsKept(u.previous_positions, "title");
    CleanRecordsKept(u.education, "degree");
    CleanRecordsKept(u.projects, "title");
  }

  /** The fields a submit requires: name, profession and photo truthy. */
  predicate RequiredFilled(u: User) {
    u.name.Truthy() && u.profession.Truthy() && u.photo.Truthy()
  }

  // ---------------------------------------------------------------------
  // Search

  /** Whether the profile's name, profession or (when truthy) company
      contains the lower-cased term, compared in lower case. */
  predicate Mentions(u: User, term: string) {
    || (u.name.Str? && Includes(Lower(u.name.s), Lower(term)))
    || (u.profession.Str? && Includes(Lower(u.profession.s), Lower(term)))
    || (u.company.Truthy() && Includes(Lower(u.company.s), Lower(term)))
  }

  /** The search callback for one profile. `||` stops at the first match,
      so `toLowerCase` of a missing profession is only reached when the
      name does not match. */
  function MatchesSearch(u: User, term: string): (r: Eval<bool>)
    ensures r.Throws? <==> !u.name.Str? || (!Includes(Lower(u.name.s), Lower(term)) && !u.profession.Str?)
    ensures r.Returns? ==> (r.value <==> Mentions(u, term))
  {
    var t := Lower(term);
    if !u.name.Str? then Throws
    else if Includes(Lower(u.name.s), t) then Returns(true)
    else if !u.profession.Str? then Throws
    else if Includes(Lower(u.profession.s), t) then Returns(true)
    else Returns(u.company.Truthy() && Includes(Lower(u.company.s), t))
  }

  function MatchedBy(term: string): User -> bool {
    u => MatchesSearch(u, term) == Returns(true)
  }

  /** `users.filter(...)` with the search callback; it throws as soon as
      the callback throws for some profile. */
  function SearchAll(us: seq<User>, term: string): (r: Eval<seq<User>>)
    ensures r.Returns? <==> forall i :: 0 <= i < |us| ==> MatchesSearch(us[i], term).Returns?
    ensures r.Returns? ==> r.value == Filter(us, MatchedBy(term))
  {
    if us == [] then Returns([])
    else match MatchesSearch(us[0], term)
      case Throws => Throws
      case Returns(hit) =>
        match SearchAll(us[1..], term)
        case Throws => Throws
        case Returns(kept) => Returns((if hit then [us[0]] else []) + kept)
  }

  /** `filteredUsers`: the empty list when the cached value is not an
      array. */
  function FilteredUsers(users: Option<seq<User>>, term: string): (r: Eval<seq<User>>)
    ensures users == None ==> r == Returns([])
  {
    if users == None then Returns([]) else SearchAll(users.value, term)
  }

  /** The search result keeps exactly the profiles that mention the term,
      in their order. */
  lemma SearchSelects(us: seq<User>, term: string)
    requires FilteredUsers(Some(us), term).Returns?
    ensures var r := FilteredUsers(Some(us), term).value;
      && SelectsInOrder(us, r, MatchedBy(term))
      && forall k :: 0 <= k < |r| ==> Mentions(r[k], term)
  {
    FilterIsSubsequence(us, MatchedBy(term));
  }

  /** With an empty term every profile is listed, provided every name is a
      string; otherwise the search throws. */
  lemma EmptyTermListsAll(us: seq<User>)
    ensures FilteredUsers(Some(us), "") ==
      if forall i :: 0 <= i < |us| ==> us[i].name.Str? then Returns(us) else Throws
  {
    forall i | 0 <= i < |us| && us[i].name.Str?
      ensures MatchedBy("")(us[i])
    {
      IncludesEmpty(Lower(us[i].name.s));
    }
    FilterKeepsAll(us, MatchedBy(""));
  }

  /** A cached create answer (`{id, message}`, no name) makes every search
      throw, so the list view fails while that entry is in the cache. */
  lemma CreatedEntryBreaksSearch(us: seq<User>, i: nat, id: Id, term: string)
    requires i < |us| && us[i] == CreatedResponseBody(id)
    ensures FilteredUsers(Some(us), term) == Throws
  {
  }

  // ---------------------------------------------------------------------
  // The structured-list editor (`DynamicFieldArray`)

  /** A record with every field of the editor set to the empty string. */
  function BlankRecord(fields: seq<string>): (r: Record)
    ensures forall f :: f in r <==> f in fields
    ensures forall f :: f in r ==> r[f] == ""
  {
    map f | f in fields :: ""
  }

  /** `addItem`: one blank record appended. */
  function AddItem(value: seq<Record>, fields: seq<string>): (r: seq<Record>)
    ensures |r| == |value| + 1
    ensures r[..|value|] == value
    ensures forall f :: f in r[|value|] <==> f in fields
    ensures forall f :: f in r[|value|] ==> r[|value|][f] == ""
  {
    value + [BlankRecord(fields)]
  }

  /** `updateItem`: the list is copied and the copy's entry at `index`
      replaced by the entry with one field set. */
  method UpdateItem(value: seq<Record>, index: nat, field: string, newValue: string) returns (r: seq<Record>)
    requires index < |value|
    ensures |r| == |value|
    ensures forall i :: 0 <= i < |value| && i != index ==> r[i] == value[i]
    ensures field in r[index] && r[index][field] == newValue
    ensures forall f :: f != field ==> (f in r[index] <==> f in value[index])
    ensures forall f :: f != field && f in value[index] ==> r[index][f] == value[index][f]
  {
    var newItems := new Record[|value|](i requires 0 <= i < |value| => value[i]);
    newItems[index] := newItems[index][field := newValue];
    r := newItems[..];
  }

  /** `removeItem`: `value.filter((_, i) => i !== index)`. */
  function RemoveItem(value: seq<Record>, index: int): (r: seq<Record>)
    ensures 0 <= index < |value| ==> r == value[..index] + value[index + 1..]
    ensures !(0 <= index < |value|) ==> r == value
  {
    if value == [] then []
    else
      var rest := RemoveItem(value[1..], index - 1);
      if index == 0 then
        assert value[1..] == value[..0] + value[1..];
        rest
      else
        RemoveBehindHead(value, index);
        [value[0]] + rest
  }

  /** Removing behind the first record is removing from the tail. */
  lemma RemoveBehindHead(value: seq<Record>, index: int)
    requires value != [] && index != 0
    ensures 0 < index < |value| ==>
      value[..index] + value[index + 1..] == [value[0]] + (value[1..][..index - 1] + value[1..][index..])
    ensures value == [value[0]] + value[1..]
  {
    if 0 < index < |value| {
      assert value[..index] == [value[0]] + value[1..][..index - 1];
      assert value[index + 1..] == value[1..][index..];
    }
  }

  /** Removing the record just added undoes the addition. */
  lemma RemoveAdded(value: seq<Record>, fields: seq<string>)
    ensures RemoveItem(AddItem(value, fields), |value|) == value
  {
    assert AddItem(value, fields)[..|value|] == value;
  }

  /** Lists edited only through the editor keep every record's fields:
      when the submit filter's field is one of the editor's fields, a blank
      addition, an update and a removal all keep it present. */
  lemma AddItemKeepsKey(value: seq<Record>, fields: seq<string>, key: string)
    requires AllHave(value, key) && key in fields
    ensures AllHave(AddItem(value, fields), key)
  {
    assert key in AddItem(value, fields)[|value|];
  }

  lemma RemoveItemKeepsKey(value: seq<Record>, index: int, key: string)
    requires AllHave(value, key)
    ensures AllHave(RemoveItem(value, index), key)
  {
    if 0 <= index < |value| {
      var r := RemoveItem(value, index);
      forall i | 0 <= i < |r|
        ensures key in r[i]
      {
        if i < index {
          assert r[i] == value[i];
        } else {
          assert r[i] == value[i + 1];
        }
      }
    }
  }

  // ---------------------------------------------------------------------
  // The dashboard's state and its handlers

  datatype Tab = Overview | AddTab | ListTab | EditTab

  /** What a handler ends with: nothing done (no profile being edited, or a
      declined confirmation), the required-field alert, an exception that
      escapes the handler, the error alert, or the success alert. */
  datatype Outcome = Ignored | MissingRequired | Threw | Failed | Succeeded

  class AdminDashboard {
    var currentTab: Tab
    var searchTerm: string
    var newUser: User
    var editingUser: Option<User>

    constructor()
      ensures currentTab == Overview && searchTerm == ""
      ensures newUser == EmptyForm() && editingUser == None
    {
      currentTab := Overview;
      searchTerm := "";
      newUser := EmptyForm();
      editingUser := None;
    }

    /** `handleAddUser`. The gate stops an incomplete form before any
      request. Building the payload throws outside the `try` when a
      structured entry lacks its key. After a successful add the form is
      reset; the list tab opens only once the portfolio link was copied,
      and a failed copy ends in the error alert. */
    method HandleAddUser(cache: UserCache, response: Reply<User>, clipboardOk: bool) returns (outcome: Outcome)
      modifies this, cache
      ensures !RequiredFilled(old(newUser)) ==>
        outcome == MissingRequired && unchanged(this) && cache.users == old(cache.users)
      ensures RequiredFilled(old(newUser)) && !StructuredListsKeyed(old(newUser)) ==>
        outcome == Threw && unchanged(this) && cache.users == old(cache.users)
      ensures RequiredFilled(old(newUser)) && StructuredListsKeyed(old(newUser)) && response.Fail? ==>
        outcome == Failed && unchanged(this) && cache.users == old(cache.users)
      ensures RequiredFilled(old(newUser)) && StructuredListsKeyed(old(newUser)) && response.Ok? ==>
        && cache.users == old(cache.users) + [response.data]
        && newUser == EmptyForm()
        && editingUser == old(editingUser) && searchTerm == old(searchTerm)
        && currentTab == (if clipboardOk then ListTab else old(currentTab))
        && outcome == (if clipboardOk then Succeeded else Failed)
    {
      if !RequiredFilled(newUser) {
        return MissingRequired;
      }
      var payload := AddPayload(newUser);
      if payload.Throws? {
        return Threw;
      }
      var settled := cache.AddUser(payload.value, response);
      if settled.Rejected? {
        return Failed;
      }
      newUser := EmptyForm();
      if !clipboardOk {
        return Failed;
      }
      currentTab := ListTab;
      outcome := Succeeded;
    }

    /** `handleUpdateUser`: nothing without a profile being edited; the
      same gate as for a new profile; the payload is sent unfiltered and,
      on success, the edit is closed and the list tab opened. */
    method HandleUpdateUser(cache: UserCache, response: Reply<User>) returns (outcome: Outcome)
      modifies this, cache
      ensures old(editingUser) == None ==>
        outcome == Ignored && unchanged(this) && cache.users == old(cache.users)
      ensures old(editingUser) != None && !RequiredFilled(old(editingUser).value) ==>
        outcome == MissingRequired && unchanged(this) && cache.users == old(cache.users)
      ensures old(editingUser) != None && RequiredFilled(old(editingUser).value) && response.Fail? ==>
        outcome == Failed && unchanged(this) && cache.users == old(cache.users)
      ensures old(editingUser) != None && RequiredFilled(old(editingUser).value) && response.Ok? ==>
        && cache.users == ReplaceById(old(cache.users), old(editingUser).value.id, response.data)
        && editingUser == None && currentTab == ListTab
        && newUser == old(newUser) && searchTerm == old(searchTerm)
        && outcome == Succeeded
    {
      if editingUser == None {
        return Ignored;
      }
      var u := editingUser.value;
      if !RequiredFilled(u) {
        return MissingRequired;
      }
      var settled := cache.UpdateUser(u.id, UpdatePayload(u), response);
      if settled.Rejected? {
        return Failed;
      }
      editingUser := None;
      currentTab := ListTab;
      outcome := Succeeded;
    }

    /** `handleDeleteUser`: only after the confirmation dialog is accepted;
      the dashboard's own state does not change. */
    method HandleDeleteUser(cache: UserCache, id: Option<Id>, confirmed: bool, response: Reply<()>) returns (outcome: Outcome)
      modifies cache
      ensures !confirmed ==> outcome == Ignored && cache.users == old(cache.users)
      ensures confirmed && response.Fail? ==> outcome == Failed && cache.users == old(cache.users)
      ensures confirmed && response.Ok? ==>
        outcome == Succeeded && cache.users == RemoveById(old(cache.users), id)
    {
      if !confirmed {
        return Ignored;
      }
      var settled := cache.DeleteUser(id, response);
      outcome := if settled.Resolved? then Succeeded else Failed;
    }

    /** `handleEditUser`: the profile is opened in the edit tab. */
    method HandleEditUser(u: User)
      modifies this
      ensures editingUser == Some(u) && currentTab == EditTab
      ensures newUser == old(newUser) && searchTerm == old(searchTerm)
    {
      editingUser := Some(u);
      currentTab := EditTab;
    }
  }
}
