/** JSON texts (RFC 8259) and the brace scanner: a JSON object text delimits itself. */
module JsonText {
  import opened Common

  /** One unit of a string body: an ordinary character, or a backslash with the character it escapes. */
  datatype StringUnit = Plain(c: char) | Escaped(c: char)

  /**
   * The concrete syntax of JSON. White space (`pre`, `mid`, `post`) is free wherever the grammar allows it.
   * An atom is a literal or a number; all that is used of it is that it has no quote and no brace.
   */
  datatype Json =
    | Atom(text: string)
    | Str(body: seq<StringUnit>)
    | Arr(inner: string, elems: Elems)
    | Obj(inner: string, members: Members)

  datatype Elems = NoElems | Elem(pre: string, value: Json, post: string, rest: Elems)

  datatype Members =
    | NoMembers
    | Member(pre: string, key: seq<StringUnit>, mid: string, sep: string, value: Json, post: string, rest: Members)

  predicate Bland(s: string) {
    forall c :: c in s ==> c != '"' && c != '{' && c != '}'
  }

  /** Insignificant white space, as section 2 of RFC 8259 lists it. */
  predicate Blank(s: string) {
    forall c :: c in s ==> c == ' ' || c == '\t' || c == '\n' || c == '\r'
  }

  predicate BodyOk(body: seq<StringUnit>) {
    forall u :: u in body ==> u.Plain? ==> u.c != '"' && u.c != '\\'
  }

  predicate JsonOk(j: Json) {
    match j
    case Atom(text) => Bland(text)
    case Str(body) => BodyOk(body)
    case Arr(inner, elems) => Blank(inner) && ElemsOk(elems)
    case Obj(inner, members) => Blank(inner) && MembersOk(members)
  }

  predicate ElemsOk(es: Elems) {
    es.NoElems? || (Blank(es.pre) && JsonOk(es.value) && Blank(es.post) && ElemsOk(es.rest))
  }

  predicate MembersOk(ms: Members) {
    ms.NoMembers? ||
    (Blank(ms.pre) && BodyOk(ms.key) && Blank(ms.mid) && Blank(ms.sep) && JsonOk(ms.value) && Blank(ms.post)
     && MembersOk(ms.rest))
  }

  function BodyText(body: seq<StringUnit>): string {
    if body == [] then ""
    else (if body[0].Plain? then [body[0].c] else ['\\', body[0].c]) + BodyText(body[1..])
  }

  function QuotedText(body: seq<StringUnit>): string {
    "\"" + (BodyText(body) + "\"")
  }

  function Text(j: Json): string {
    match j
    case Atom(text) => text
    case Str(body) => QuotedText(body)
    case Arr(inner, elems) => "[" + (inner + (ElemsText(elems) + "]"))
    case Obj(inner, members) => "{" + (inner + (MembersText(members) + "}"))
  }

  function ElemsText(es: Elems): string {
    match es
    case NoElems => ""
    case Elem(pre, value, post, rest) =>
      pre + (Text(value) + (post + ((if rest.NoElems? then "" else ",") + ElemsText(rest))))
  }

  function MembersText(ms: Members): string {
    match ms
    case NoMembers => ""
    case Member(pre, key, mid, sep, value, post, rest) =>
      pre + (QuotedText(key) + (mid + (":" + (sep + (Text(value) +
      (post + ((if rest.NoMembers? then "" else ",") + MembersText(rest))))))))
  }

  // ---- The scanner ----------------------------------------------------------------------------------------

  /** The three variables of the scan. */
  datatype Scan = Scan(depth: int, inString: bool, escape: bool)

  function Outside(depth: int): Scan {
    Scan(depth, false, false)
  }

  /** One round of the scanning loop. */
  function Feed(s: Scan, c: char): Scan {
    if s.inString then
      if s.escape then s.(escape := false)
      else if c == '\\' then s.(escape := true)
      else if c == '"' then s.(inString := false)
      else s
    else if c == '"' then s.(inString := true)
    else if c == '{' then s.(depth := s.depth + 1)
    else if c == '}' then s.(depth := s.depth - 1)
    else s
  }

  /** A closing brace, outside strings, that brings the depth back to zero. */
  predicate Closes(s: Scan, c: char) {
    !s.inString && c == '}' && s.depth == 1
  }

  function FeedAll(s: Scan, text: string): Scan
    decreases |text|
  {
    if text == "" then s else FeedAll(Feed(s, text[0]), text[1..])
  }

  /** The offset of the first closing brace, if the text has one. */
  function FirstClose(s: Scan, text: string): (r: Option<nat>)
    ensures r.Some? ==> r.value < |text| && text[r.value] == '}'
    decreases |text|
  {
    if text == "" then None
    else if Closes(s, text[0]) then Some(0)
    else Later(1, FirstClose(Feed(s, text[0]), text[1..]))
  }

  /** An offset counted from `n` characters earlier. */
  function Later(n: nat, offset: Option<nat>): Option<nat> {
    if offset.None? then None else Some(n + offset.value)
  }

  /** The text is read from `s` to `t` without a closing brace on the way. */
  ghost predicate Carries(s: Scan, text: string, t: Scan) {
    FeedAll(s, text) == t && FirstClose(s, text).None?
  }

  lemma {:induction false} FirstCloseAfter(s: Scan, a: string, t: Scan, b: string)
    requires Carries(s, a, t)
    ensures FirstClose(s, a + b) == Later(|a|, FirstClose(t, b))
    ensures FeedAll(s, a + b) == FeedAll(t, b)
    decreases |a|
  {
    if a == "" {
      assert a + b == b;
    } else {
      assert (a + b)[1..] == a[1..] + b;
      FirstCloseAfter(Feed(s, a[0]), a[1..], t, b);
    }
  }

  lemma CarriesOn(s: Scan, a: string, t: Scan, b: string, u: Scan)
    requires Carries(s, a, t) && Carries(t, b, u)
    ensures Carries(s, a + b, u)
  {
    FirstCloseAfter(s, a, t, b);
  }

  lemma CharCarries(s: Scan, c: char)
    requires !Closes(s, c)
    ensures Carries(s, [c], Feed(s, c))
  {
    assert [c][1..] == "";
    assert FeedAll(Feed(s, c), "") == Feed(s, c) && FirstClose(Feed(s, c), "") == None;
  }

  lemma {:induction false} BlandCarries(text: string, depth: int)
    requires Bland(text)
    ensures Carries(Outside(depth), text, Outside(depth))
  {
    if text != "" {
      assert text[0] in text && forall c :: c in text[1..] ==> c in text;
      BlandCarries(text[1..], depth);
    }
  }

  lemma BlankIsBland(text: string)
    requires Blank(text)
    ensures Bland(text)
  {
  }

  lemma {:induction false} BodyCarries(body: seq<StringUnit>, depth: int)
    requires BodyOk(body)
    ensures Carries(Scan(depth, true, false), BodyText(body), Scan(depth, true, false))
  {
    if body != [] {
      var s := Scan(depth, true, false);
      var u := if body[0].Plain? then [body[0].c] else ['\\', body[0].c];
      assert body[0] in body;
      CharCarries(s, u[0]);
      if body[0].Escaped? {
        CharCarries(Feed(s, '\\'), body[0].c);
        CarriesOn(s, "\\", Feed(s, '\\'), [body[0].c], s);
        assert u == "\\" + [body[0].c];
      }
      assert Carries(s, u, s);
      BodyCarries(body[1..], depth);
      CarriesOn(s, u, s, BodyText(body[1..]), s);
    }
  }

  lemma QuotedCarries(body: seq<StringUnit>, depth: int)
    requires BodyOk(body)
    ensures Carries(Outside(depth), QuotedText(body), Outside(depth))
  {
    var inside := Scan(depth, true, false);
    BodyCarries(body, depth);
    CharCarries(Outside(depth), '"');
    CharCarries(inside, '"');
    CarriesOn(inside, BodyText(body), inside, "\"", Outside(depth));
    CarriesOn(Outside(depth), "\"", inside, BodyText(body) + "\"", Outside(depth));
  }

  /** Nested at any positive depth, a JSON text is passed over whole. */
  lemma {:induction false} JsonCarries(j: Json, depth: int)
    requires JsonOk(j) && depth >= 1
    ensures Carries(Outside(depth), Text(j), Outside(depth))
    decreases j
  {
    var o := Outside(depth);
    match j
    case Atom(text) => BlandCarries(text, depth);
    case Str(body) => QuotedCarries(body, depth);
    case Arr(inner, elems) =>
      BlankIsBland(inner);
      BlandCarries("[", depth);
      BlandCarries(inner, depth);
      BlandCarries("]", depth);
      ElemsCarry(elems, depth);
      CarriesOn(o, ElemsText(elems), o, "]", o);
      CarriesOn(o, inner, o, ElemsText(elems) + "]", o);
      CarriesOn(o, "[", o, inner + (ElemsText(elems) + "]"), o);
    case Obj(inner, members) =>
      InnerCarries(inner, members, depth + 1);
      var deeper := Outside(depth + 1);
      CharCarries(o, '{');
      CharCarries(deeper, '}');
      CarriesOn(deeper, inner + MembersText(members), deeper, "}", o);
      CarriesOn(o, "{", deeper, inner + MembersText(members) + "}", o);
      assert Text(j) == "{" + (inner + MembersText(members) + "}");
  }

  lemma {:induction false} InnerCarries(inner: string, members: Members, depth: int)
    requires Blank(inner) && MembersOk(members) && depth >= 1
    ensures Carries(Outside(depth), inner + MembersText(members), Outside(depth))
    decreases members, 1
  {
    BlankIsBland(inner);
    BlandCarries(inner, depth);
    MembersCarry(members, depth);
    CarriesOn(Outside(depth), inner, Outside(depth), MembersText(members), Outside(depth));
  }

  lemma {:induction false} ElemsCarry(es: Elems, depth: int)
    requires ElemsOk(es) && depth >= 1
    ensures Carries(Outside(depth), ElemsText(es), Outside(depth))
    decreases es
  {
    var o := Outside(depth);
    match es
    case NoElems =>
    case Elem(pre, value, post, rest) =>
      var comma := if rest.NoElems? then "" else ",";
      BlankIsBland(pre);
      BlankIsBland(post);
      BlandCarries(pre, depth);
      BlandCarries(post, depth);
      BlandCarries(comma, depth);
      JsonCarries(value, depth);
      ElemsCarry(rest, depth);
      CarriesOn(o, comma, o, ElemsText(rest), o);
      CarriesOn(o, post, o, comma + ElemsText(rest), o);
      CarriesOn(o, Text(value), o, post + (comma + ElemsText(rest)), o);
      CarriesOn(o, pre, o, Text(value) + (post + (comma + ElemsText(rest))), o);
  }

  lemma {:induction false} MembersCarry(ms: Members, depth: int)
    requires MembersOk(ms) && depth >= 1
    ensures Carries(Outside(depth), MembersText(ms), Outside(depth))
    decreases ms, 0
  {
    var o := Outside(depth);
    match ms
    case NoMembers =>
    case Member(pre, key, mid, sep, value, post, rest) =>
      var comma := if rest.NoMembers? then "" else ",";
      var tail := post + (comma + MembersText(rest));
      BlankIsBland(pre);
      BlankIsBland(mid);
      BlankIsBland(sep);
      BlankIsBland(post);
      BlandCarries(pre, depth);
      BlandCarries(mid, depth);
      BlandCarries(":", depth);
      BlandCarries(sep, depth);
      BlandCarries(post, depth);
      BlandCarries(comma, depth);
      QuotedCarries(key, depth);
      JsonCarries(value, depth);
      MembersCarry(rest, depth);
      CarriesOn(o, comma, o, MembersText(rest), o);
      CarriesOn(o, post, o, comma + MembersText(rest), o);
      CarriesOn(o, Text(value), o, tail, o);
      CarriesOn(o, sep, o, Text(value) + tail, o);
      CarriesOn(o, ":", o, sep + (Text(value) + tail), o);
      CarriesOn(o, mid, o, ":" + (sep + (Text(value) + tail)), o);
      CarriesOn(o, QuotedText(key), o, mid + (":" + (sep + (Text(value) + tail))), o);
      CarriesOn(o, pre, o, QuotedText(key) + (mid + (":" + (sep + (Text(value) + tail)))), o);
  }

  /** Whatever follows it, the depth first returns to zero at the last character of an object text. */
  lemma {:induction false} ObjectClosesAtItsEnd(j: Json, suffix: string)
    requires j.Obj? && JsonOk(j)
    ensures FirstClose(Outside(0), Text(j) + suffix) == Some(|Text(j)| - 1)
  {
    var body := j.inner + MembersText(j.members);
    InnerCarries(j.inner, j.members, 1);
    CharCarries(Outside(0), '{');
    CarriesOn(Outside(0), "{", Outside(1), body, Outside(1));
    FirstCloseAfter(Outside(0), "{" + body, Outside(1), "}" + suffix);
    assert Text(j) == "{" + body + "}";
    assert Text(j) + suffix == ("{" + body) + ("}" + suffix);
    assert FirstClose(Outside(1), "}" + suffix) == Some(0);
  }

  /** Object texts are prefix free: where one ends is visible in the text itself. */
  lemma ObjectTextDelimitsItself(j: Json, suffix: string, k: Json, rest: string)
    requires j.Obj? && JsonOk(j) && k.Obj? && JsonOk(k)
    requires Text(j) + suffix == Text(k) + rest
    ensures Text(j) == Text(k) && suffix == rest
  {
    ObjectClosesAtItsEnd(j, suffix);
    ObjectClosesAtItsEnd(k, rest);
    assert Text(j) == (Text(j) + suffix)[..|Text(j)|];
    assert suffix == (Text(j) + suffix)[|Text(j)|..];
    assert Text(k) == (Text(k) + rest)[..|Text(k)|];
    assert rest == (Text(k) + rest)[|Text(k)|..];
  }
}
