/** Reading a link back: the part before `?`, and the `name=value` fields of
    the query joined by `&`. This is the shape of `hfields` in section 2 of
    RFC 6068 (`mailto`) and of a query in section 3.4 of RFC 3986; values are
    left percent-encoded, to be decoded with `Uri.Decode`. */
module Url {
  import opened Wrappers
  import Uri

  /** `s` cut at the first `d`: what precedes it, and what follows it if `d` occurs. */
  function SplitOnce(s: string, d: char): (r: (string, Option<string>))
    ensures d !in r.0
    ensures r.1.None? ==> r.0 == s
    ensures r.1.Some? ==> s == r.0 + [d] + r.1.value
  {
    if s == [] then ([], None)
    else if s[0] == d then ([], Some(s[1..]))
    else
      var (a, b) := SplitOnce(s[1..], d);
      ([s[0]] + a, b)
  }

  /** `s` cut at every `d`, as JavaScript's `split` does: always at least one
      piece, and no piece holds `d`. */
  function Split(s: string, d: char): (parts: seq<string>)
    ensures |parts| >= 1
    ensures forall i | 0 <= i < |parts| :: d !in parts[i]
    decreases |s|
  {
    match SplitOnce(s, d)
    case (a, None) => [a]
    case (a, Some(b)) => [a] + Split(b, d)
  }

  /** The pieces joined back with `d` between them. */
  function Join(parts: seq<string>, d: char): string
    requires |parts| >= 1
  {
    if |parts| == 1 then parts[0] else parts[0] + [d] + Join(parts[1..], d)
  }

  lemma {:induction false} SplitOnceAt(a: string, d: char, b: string)
    requires d !in a
    ensures SplitOnce(a + [d] + b, d) == (a, Some(b))
  {
    if a != [] {
      assert (a + [d] + b)[0] == a[0] && (a + [d] + b)[1..] == a[1..] + [d] + b;
      SplitOnceAt(a[1..], d, b);
      assert [a[0]] + a[1..] == a;
    }
  }

  lemma {:induction false} SplitOnceAbsent(a: string, d: char)
    requires d !in a
    ensures SplitOnce(a, d) == (a, None)
  {
    if a != [] {
      SplitOnceAbsent(a[1..], d);
    }
  }

  /** Appending a separator and a piece free of it adds that piece as one more
      part. */
  lemma {:induction false} SplitLast(a: string, d: char, b: string)
    requires d !in b
    ensures Split(a + [d] + b, d) == Split(a, d) + [b]
    decreases |a|
  {
    match SplitOnce(a, d)
    case (x, None) =>
      SplitOnceAt(a, d, b);
      SplitOnceAbsent(b, d);
    case (x, Some(y)) =>
      assert a + [d] + b == x + [d] + (y + [d] + b);
      SplitOnceAt(x, d, y + [d] + b);
      SplitOnceAt(x, d, y);
      SplitLast(y, d, b);
  }

  /** Seven newline-free lines joined with newlines split back into them. */
  lemma SplitSeven(l1: string, l2: string, l3: string, l4: string, l5: string, l6: string, l7: string)
    requires '\n' !in l1 && '\n' !in l2 && '\n' !in l3 && '\n' !in l4 && '\n' !in l5 && '\n' !in l6 && '\n' !in l7
    ensures Split(l1 + "\n" + l2 + "\n" + l3 + "\n" + l4 + "\n" + l5 + "\n" + l6 + "\n" + l7, '\n')
      == [l1, l2, l3, l4, l5, l6, l7]
  {
    var t2 := l1 + "\n" + l2;
    var t3 := t2 + "\n" + l3;
    var t4 := t3 + "\n" + l4;
    var t5 := t4 + "\n" + l5;
    var t6 := t5 + "\n" + l6;
    SplitOnceAbsent(l1, '\n');
    SplitLast(l1, '\n', l2);
    assert Split(t2, '\n') == [l1, l2];
    SplitLast(t2, '\n', l3);
    assert Split(t3, '\n') == [l1, l2, l3];
    SplitLast(t3, '\n', l4);
    assert Split(t4, '\n') == [l1, l2, l3, l4];
    SplitLast(t4, '\n', l5);
    assert Split(t5, '\n') == [l1, l2, l3, l4, l5];
    SplitLast(t5, '\n', l6);
    assert Split(t6, '\n') == [l1, l2, l3, l4, l5, l6];
    SplitLast(t6, '\n', l7);
  }

  /** Six more newline-free lines appended, each after a newline, become six
      more parts. */
  lemma SplitSixMore(t: string, parts: seq<string>, l1: string, l2: string, l3: string, l4: string, l5: string, l6: string)
    requires Split(t, '\n') == parts
    requires '\n' !in l1 && '\n' !in l2 && '\n' !in l3 && '\n' !in l4 && '\n' !in l5 && '\n' !in l6
    ensures Split(t + "\n" + l1 + "\n" + l2 + "\n" + l3 + "\n" + l4 + "\n" + l5 + "\n" + l6, '\n')
      == parts + [l1, l2, l3, l4, l5, l6]
  {
    var t1 := t + "\n" + l1;
    var t2 := t1 + "\n" + l2;
    var t3 := t2 + "\n" + l3;
    var t4 := t3 + "\n" + l4;
    var t5 := t4 + "\n" + l5;
    SplitLast(t, '\n', l1);
    SplitLast(t1, '\n', l2);
    assert Split(t2, '\n') == parts + [l1, l2];
    SplitLast(t2, '\n', l3);
    assert Split(t3, '\n') == parts + [l1, l2, l3];
    SplitLast(t3, '\n', l4);
    assert Split(t4, '\n') == parts + [l1, l2, l3, l4];
    SplitLast(t4, '\n', l5);
    assert Split(t5, '\n') == parts + [l1, l2, l3, l4, l5];
    SplitLast(t5, '\n', l6);
  }

  /** Thirteen newline-free lines joined with newlines split back into them. */
  lemma SplitThirteen(l1: string, l2: string, l3: string, l4: string, l5: string, l6: string, l7: string,
                      l8: string, l9: string, l10: string, l11: string, l12: string, l13: string)
    requires '\n' !in l1 && '\n' !in l2 && '\n' !in l3 && '\n' !in l4 && '\n' !in l5 && '\n' !in l6 && '\n' !in l7
    requires '\n' !in l8 && '\n' !in l9 && '\n' !in l10 && '\n' !in l11 && '\n' !in l12 && '\n' !in l13
    ensures Split(l1 + "\n" + l2 + "\n" + l3 + "\n" + l4 + "\n" + l5 + "\n" + l6 + "\n" + l7 + "\n" + l8 + "\n" + l9
      + "\n" + l10 + "\n" + l11 + "\n" + l12 + "\n" + l13, '\n') == [l1, l2, l3, l4, l5, l6, l7, l8, l9, l10, l11, l12, l13]
  {
    var t7 := l1 + "\n" + l2 + "\n" + l3 + "\n" + l4 + "\n" + l5 + "\n" + l6 + "\n" + l7;
    SplitSeven(l1, l2, l3, l4, l5, l6, l7);
    SplitSixMore(t7, [l1, l2, l3, l4, l5, l6, l7], l8, l9, l10, l11, l12, l13);
    assert [l1, l2, l3, l4, l5, l6, l7] + [l8, l9, l10, l11, l12, l13] == [l1, l2, l3, l4, l5, l6, l7, l8, l9, l10, l11, l12, l13];
  }

  /** Splitting undoes joining pieces that do not hold the separator. */
  lemma {:induction false} SplitJoin(parts: seq<string>, d: char)
    requires |parts| >= 1
    requires forall i | 0 <= i < |parts| :: d !in parts[i]
    ensures Split(Join(parts, d), d) == parts
  {
    if |parts| == 1 {
      SplitOnceAbsent(parts[0], d);
    } else {
      SplitOnceAt(parts[0], d, Join(parts[1..], d));
      SplitJoin(parts[1..], d);
    }
  }

  /** Joining undoes splitting: no character is lost or added. */
  lemma {:induction false} JoinSplit(s: string, d: char)
    ensures Join(Split(s, d), d) == s
    decreases |s|
  {
    match SplitOnce(s, d)
    case (a, None) =>
    case (a, Some(b)) =>
      JoinSplit(b, d);
  }

  /** One query field; `value` is still percent-encoded. */
  datatype Field = Field(name: string, value: string)

  function ParseField(p: string): Field {
    var (name, value) := SplitOnce(p, '=');
    Field(name, value.GetOr([]))
  }

  /** The part of `url` before its query. */
  function Target(url: string): string {
    SplitOnce(url, '?').0
  }

  /** The fields of the query of `url`, in order; none when there is no `?`. */
  function Query(url: string): seq<Field> {
    match SplitOnce(url, '?').1
    case None => []
    case Some(q) =>
      var parts := Split(q, '&');
      seq(|parts|, i requires 0 <= i < |parts| => ParseField(parts[i]))
  }

  /** The value of the first field called `name`, if any. */
  function Lookup(fields: seq<Field>, name: string): Option<string> {
    if fields == [] then None
    else if fields[0].name == name then Some(fields[0].value)
    else Lookup(fields[1..], name)
  }

  /** The percent-decoded value of query field `name` of `url`. */
  function Param(url: string, name: string): Option<string> {
    match Lookup(Query(url), name)
    case None => None
    case Some(v) => Uri.Decode(v)
  }

  /** Each field written as `name=value`. */
  function Rendered(fields: seq<Field>): (parts: seq<string>)
    ensures |parts| == |fields|
  {
    seq(|fields|, i requires 0 <= i < |fields| => fields[i].name + "=" + fields[i].value)
  }

  /** The link `target?n1=v1&n2=v2…`; values must already be encoded. */
  function Build(target: string, fields: seq<Field>): string
    requires |fields| >= 1
  {
    target + "?" + Join(Rendered(fields), '&')
  }

  /** Fields whose names hold no `&` or `=` and whose values hold no `&`. */
  predicate Separable(fields: seq<Field>) {
    forall i | 0 <= i < |fields| ::
      '&' !in fields[i].name && '=' !in fields[i].name && '&' !in fields[i].value
  }

  /** Reading a built link back gives its target and its fields, in order, when
      the target has no `?` and the fields are separable. */
  lemma QueryOfBuild(target: string, fields: seq<Field>)
    requires '?' !in target && |fields| >= 1 && Separable(fields)
    ensures Target(Build(target, fields)) == target
    ensures Query(Build(target, fields)) == fields
  {
    var parts := Rendered(fields);
    assert Build(target, fields) == target + ['?'] + Join(parts, '&');
    SplitOnceAt(target, '?', Join(parts, '&'));
    forall i | 0 <= i < |parts| ensures '&' !in parts[i] && ParseField(parts[i]) == fields[i] {
      assert parts[i] == fields[i].name + ['='] + fields[i].value;
      SplitOnceAt(fields[i].name, '=', fields[i].value);
    }
    SplitJoin(parts, '&');
  }

  /** A link with one field, spelled out. */
  lemma BuildOne(target: string, name: string, value: string)
    ensures Build(target, [Field(name, value)]) == target + ("?" + name + "=") + value
  {
  }

  /** A link with two fields, spelled out; it holds one `&` more than its parts. */
  lemma BuildTwo(target: string, n1: string, v1: string, n2: string, v2: string)
    ensures Build(target, [Field(n1, v1), Field(n2, v2)]) == target + ("?" + n1 + "=") + v1 + ("&" + n2 + "=") + v2
  {
    var fields := [Field(n1, v1), Field(n2, v2)];
    var parts := Rendered(fields);
    assert parts == [n1 + "=" + v1, n2 + "=" + v2];
    assert parts[1..] == [n2 + "=" + v2];
    assert Join(parts, '&') == n1 + "=" + v1 + "&" + (n2 + "=" + v2);
  }

  /** A two-field link holds exactly one `&` when nothing in it but the
      separator does. */
  lemma BuildTwoAmpersand(target: string, n1: string, v1: string, n2: string, v2: string)
    requires '&' !in target && '&' !in n1 && '&' !in v1 && '&' !in n2 && '&' !in v2
    ensures multiset(Build(target, [Field(n1, v1), Field(n2, v2)]))['&'] == 1
  {
    BuildTwo(target, n1, v1, n2, v2);
    assert multiset(Build(target, [Field(n1, v1), Field(n2, v2)])) == multiset(target) + multiset("?") + multiset(n1)
      + multiset("=") + multiset(v1) + multiset("&") + multiset(n2) + multiset("=") + multiset(v2);
  }

  /** A link with a target free of `?` and one field whose value is the
      encoding of `text` reads back as that one field, which decodes to `text`. */
  lemma OneFieldUrlReadsBack(target: string, name: string, text: string)
    requires '?' !in target && '&' !in name && '=' !in name
    ensures var url := Build(target, [Field(name, Uri.Encode(text))]);
      && Target(url) == target
      && Query(url) == [Field(name, Uri.Encode(text))]
      && Param(url, name) == Some(text)
  {
    var fields := [Field(name, Uri.Encode(text))];
    Uri.EncodeHasNoDelimiters(text);
    QueryOfBuild(target, fields);
    ParamOfBuild(target, fields, 0, text);
  }

  /** A link with a target free of `?` and two fields whose values are the
      encodings of `text1` and `text2` reads back as exactly those two fields,
      and each field decodes to its own text. */
  lemma TwoFieldUrlReadsBack(target: string, n1: string, text1: string, n2: string, text2: string)
    requires '?' !in target
    requires '&' !in n1 && '=' !in n1 && '&' !in n2 && '=' !in n2 && n1 != n2
    ensures var url := Build(target, [Field(n1, Uri.Encode(text1)), Field(n2, Uri.Encode(text2))]);
      && Target(url) == target
      && Query(url) == [Field(n1, Uri.Encode(text1)), Field(n2, Uri.Encode(text2))]
      && Param(url, n1) == Some(text1)
      && Param(url, n2) == Some(text2)
  {
    var fields := [Field(n1, Uri.Encode(text1)), Field(n2, Uri.Encode(text2))];
    Uri.EncodeHasNoDelimiters(text1);
    Uri.EncodeHasNoDelimiters(text2);
    QueryOfBuild(target, fields);
    ParamOfBuild(target, fields, 0, text1);
    ParamOfBuild(target, fields, 1, text2);
  }

  /** Such a link holds exactly one `&` when its target and field names hold
      none: the encoded texts never do. */
  lemma TwoFieldUrlAmpersand(target: string, n1: string, text1: string, n2: string, text2: string)
    requires '&' !in target && '&' !in n1 && '&' !in n2
    ensures multiset(Build(target, [Field(n1, Uri.Encode(text1)), Field(n2, Uri.Encode(text2))]))['&'] == 1
  {
    Uri.EncodeHasNoDelimiters(text1);
    Uri.EncodeHasNoDelimiters(text2);
    BuildTwoAmpersand(target, n1, Uri.Encode(text1), n2, Uri.Encode(text2));
  }

  /** The decoded value of each field of a built link whose values are all
      encodings: the field's original text. */
  lemma ParamOfBuild(target: string, fields: seq<Field>, k: nat, text: string)
    requires '?' !in target && |fields| >= 1 && Separable(fields)
    requires k < |fields| && fields[k].value == Uri.Encode(text)
    requires forall j | 0 <= j < k :: fields[j].name != fields[k].name
    ensures Param(Build(target, fields), fields[k].name) == Some(text)
  {
    QueryOfBuild(target, fields);
    LookupFirst(fields, k);
  }

  /** `Lookup` finds the first field of a name. */
  lemma {:induction false} LookupFirst(fields: seq<Field>, k: nat)
    requires k < |fields|
    requires forall j | 0 <= j < k :: fields[j].name != fields[k].name
    ensures Lookup(fields, fields[k].name) == Some(fields[k].value)
  {
    if k > 0 {
      LookupFirst(fields[1..], k - 1);
    }
  }
}
