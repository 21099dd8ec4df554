/** Cache keys: a service code and a filter map become one string, and on clean inputs
    the string can be read back. The hash over it is taken to be collision-free. */
module CacheKeys {
  import opened Sequences

  datatype Request = Request(service: string, filters: map<string, string>)

  // ---- the order of strings ----

  predicate Less(a: string, b: string) {
    b != "" && (a == "" || a[0] < b[0] || (a[0] == b[0] && Less(a[1..], b[1..])))
  }

  lemma {:induction false} LessTrichotomy(a: string, b: string)
    ensures Less(a, b) || a == b || Less(b, a)
    ensures !(Less(a, b) && Less(b, a)) && !Less(a, a)
  {
    if a != "" {
      if b != "" {
        LessTrichotomy(a[1..], b[1..]);
        assert a == [a[0]] + a[1..] && b == [b[0]] + b[1..];
      }
      LessTrichotomy(a[1..], a[1..]);
    }
  }

  lemma {:induction false} LessTransitive(a: string, b: string, c: string)
    requires Less(a, b) && Less(b, c)
    ensures Less(a, c)
  {
    if a != "" && a[0] == b[0] == c[0] {
      LessTransitive(a[1..], b[1..], c[1..]);
    }
  }

  ghost predicate Ascending(ks: seq<string>) {
    forall i, j :: 0 <= i < j < |ks| ==> Less(ks[i], ks[j])
  }

  function InsertKey(ks: seq<string>, k: string): seq<string> {
    if ks == [] || Less(Last(ks), k) then ks + [k] else InsertKey(Init(ks), k) + [Last(ks)]
  }

  lemma {:induction false} InsertKeyMembers(ks: seq<string>, k: string)
    ensures forall x :: x in InsertKey(ks, k) <==> x == k || x in ks
  {
    if ks != [] {
      assert ks == Init(ks) + [Last(ks)];
      InsertKeyMembers(Init(ks), k);
    }
  }

  lemma {:induction false} InsertKeyAscends(ks: seq<string>, k: string)
    requires Ascending(ks) && k !in ks
    ensures Ascending(InsertKey(ks, k))
  {
    var r := InsertKey(ks, k);
    if ks == [] {
    } else if Less(Last(ks), k) {
      forall i | 0 <= i < |ks| ensures Less(ks[i], k) {
        if i < |ks| - 1 {
          LessTransitive(ks[i], Last(ks), k);
        }
      }
    } else {
      InsertKeyAscends(Init(ks), k);
      InsertKeyMembers(Init(ks), k);
      LessTrichotomy(k, Last(ks));
      forall i | 0 <= i < |r| - 1 ensures Less(r[i], Last(ks)) {
        assert r[i] in InsertKey(Init(ks), k);
        if r[i] != k {
          var j :| 0 <= j < |Init(ks)| && Init(ks)[j] == r[i];
        }
      }
    }
  }

  /** The library's sort. */
  function SortKeys(ks: seq<string>): seq<string> {
    if ks == [] then [] else InsertKey(SortKeys(Init(ks)), Last(ks))
  }

  lemma {:induction false} SortKeysSorts(ks: seq<string>)
    requires NoRepeats(ks)
    ensures Ascending(SortKeys(ks)) && forall k :: k in SortKeys(ks) <==> k in ks
  {
    if ks != [] {
      SortKeysSorts(Init(ks));
      assert Last(ks) !in Init(ks);
      assert ks == Init(ks) + [Last(ks)];
      InsertKeyMembers(SortKeys(Init(ks)), Last(ks));
      InsertKeyAscends(SortKeys(Init(ks)), Last(ks));
    }
  }

  lemma LastIsNew(ks: seq<string>)
    requires Ascending(ks) && ks != []
    ensures Last(ks) !in Init(ks)
    ensures forall k :: k in ks <==> k in Init(ks) || k == Last(ks)
  {
    LessTrichotomy(Last(ks), Last(ks));
    assert ks == Init(ks) + [Last(ks)];
  }

  /** Two ascending lists of the same keys are the same list. */
  lemma {:induction false} AscendingUnique(a: seq<string>, b: seq<string>)
    requires Ascending(a) && Ascending(b)
    requires forall x :: x in a <==> x in b
    ensures a == b
  {
    assert a != [] ==> Last(a) in b;
    assert b != [] ==> Last(b) in a;
    if a != [] {
      var x := Last(a);
      LessTrichotomy(x, Last(b));
      assert Last(b) == x;
      LastIsNew(a);
      LastIsNew(b);
      forall k ensures k in Init(a) <==> k in Init(b) {
        assert k in a <==> k in b;
      }
      AscendingUnique(Init(a), Init(b));
      assert a == Init(a) + [x] && b == Init(b) + [x];
    }
  }

  // ---- serialization ----

  function Line(k: string, v: string): string {
    k + "=" + v + "\n"
  }

  /** One line per key, in the order given. */
  function Lines(ks: seq<string>, filters: map<string, string>): string {
    if ks == [] then ""
    else (if ks[0] in filters then Line(ks[0], filters[ks[0]]) else "") + Lines(ks[1..], filters)
  }

  ghost predicate SortedKeysOf(ks: seq<string>, filters: map<string, string>) {
    Ascending(ks) && forall k :: k in ks <==> k in filters
  }

  /** `text` lists the filters by ascending key. */
  ghost predicate Serializes(filters: map<string, string>, text: string) {
    exists ks :: SortedKeysOf(ks, filters) && text == Lines(ks, filters)
  }

  lemma SerializesUnique(filters: map<string, string>, a: string, b: string)
    requires Serializes(filters, a) && Serializes(filters, b)
    ensures a == b
  {
    var ks :| SortedKeysOf(ks, filters) && a == Lines(ks, filters);
    var ls :| SortedKeysOf(ls, filters) && b == Lines(ls, filters);
    AscendingUnique(ks, ls);
  }

  /** The first loop: the keys, met in no particular order. */
  method CollectKeys(filters: map<string, string>) returns (keys: seq<string>)
    ensures NoRepeats(keys) && forall k :: k in keys <==> k in filters
  {
    keys := [];
    var rest := filters.Keys;
    while rest != {}
      invariant NoRepeats(keys)
      invariant forall k :: k in filters <==> k in keys || k in rest
      invariant forall k :: k in keys ==> k !in rest
    {
      var k :| k in rest;
      assert k !in keys;
      keys := keys + [k];
      rest := rest - {k};
    }
  }

  lemma LinesFrom(keys: seq<string>, filters: map<string, string>, i: nat)
    requires i < |keys| && keys[i] in filters
    ensures Lines(keys[i..], filters) == Line(keys[i], filters[keys[i]]) + Lines(keys[i + 1..], filters)
  {
    assert keys[i..][1..] == keys[i + 1..];
  }

  /** The second loop: one line per key. */
  method WriteLines(keys: seq<string>, filters: map<string, string>) returns (text: string)
    requires forall k :: k in keys ==> k in filters
    ensures text == Lines(keys, filters)
  {
    text := "";
    for i := 0 to |keys|
      invariant Lines(keys, filters) == text + Lines(keys[i..], filters)
    {
      var k := keys[i];
      assert k in keys;
      LinesFrom(keys, filters, i);
      ghost var rest := Lines(keys[i + 1..], filters);
      assert text + (Line(k, filters[k]) + rest) == (text + Line(k, filters[k])) + rest;
      text := text + Line(k, filters[k]);
    }
    assert text + "" == text;
  }

  /** The sort makes the text depend on the map alone. */
  method SerializeFilters(filters: map<string, string>) returns (text: string)
    ensures Serializes(filters, text)
    ensures filters == map[] ==> text == ""
  {
    if |filters| == 0 {
      assert SortedKeysOf([], filters) && Lines([], filters) == "";
      return "";
    }
    var keys := CollectKeys(filters);
    SortKeysSorts(keys);
    keys := SortKeys(keys);
    assert SortedKeysOf(keys, filters);
    text := WriteLines(keys, filters);
  }

  lemma {:induction false} SortedKeysExist(keys: set<string>) returns (ks: seq<string>)
    ensures Ascending(ks) && forall k :: k in ks <==> k in keys
  {
    ks := [];
    if keys != {} {
      var k :| k in keys;
      ks := SortedKeysExist(keys - {k});
      InsertKeyMembers(ks, k);
      InsertKeyAscends(ks, k);
      ks := InsertKey(ks, k);
    }
  }

  lemma SerializationExists(filters: map<string, string>)
    ensures exists text :: Serializes(filters, text)
  {
    var ks := SortedKeysExist(filters.Keys);
    assert SortedKeysOf(ks, filters);
    assert Serializes(filters, Lines(ks, filters));
  }

  ghost function Serialized(filters: map<string, string>): (text: string)
    ensures Serializes(filters, text)
  {
    SerializationExists(filters);
    var text :| Serializes(filters, text);
    text
  }

  /** What is hashed into the file name. */
  ghost function Key(r: Request): string {
    r.service + "\n" + Serialized(r.filters)
  }

  // ---- reading a key back ----

  /** The index of the first `c`, or the length. */
  function IndexOfChar(s: string, c: char): (i: nat)
    ensures i <= |s| && (i < |s| ==> s[i] == c)
  {
    if s == "" || s[0] == c then 0 else 1 + IndexOfChar(s[1..], c)
  }

  lemma {:induction false} NotBefore(s: string, c: char)
    ensures c !in s[..IndexOfChar(s, c)]
  {
    if s != "" && s[0] != c {
      NotBefore(s[1..], c);
      assert s[..1 + IndexOfChar(s[1..], c)] == [s[0]] + s[1..][..IndexOfChar(s[1..], c)];
    }
  }

  lemma {:induction false} FirstOf(field: string, c: char, rest: string)
    requires c !in field
    ensures IndexOfChar(field + [c] + rest, c) == |field|
  {
    var s := field + [c] + rest;
    if field != "" {
      FirstOf(field[1..], c, rest);
      assert s[1..] == field[1..] + [c] + rest;
    }
  }

  /** Reads lines "key=value" back into a map. */
  function ParseLines(text: string): map<string, string>
    decreases |text|
  {
    var e := IndexOfChar(text, '=');
    if e == |text| then map[] else ParseValue(text[..e], text[e + 1..])
  }

  function ParseValue(k: string, tail: string): map<string, string>
    decreases |tail|
  {
    var n := IndexOfChar(tail, '\n');
    if n == |tail| then map[k := tail] else map[k := tail[..n]] + ParseLines(tail[n + 1..])
  }

  function ParseKey(key: string): Request {
    var n := IndexOfChar(key, '\n');
    if n == |key| then Request(key, map[]) else Request(key[..n], ParseLines(key[n + 1..]))
  }

  /** No newline in the service or the values, no equals sign in the keys. */
  ghost predicate CleanFilters(filters: map<string, string>) {
    forall k :: k in filters ==> '=' !in k && '\n' !in filters[k]
  }

  ghost predicate Clean(r: Request) {
    '\n' !in r.service && CleanFilters(r.filters)
  }

  lemma CutAt(field: string, c: char, rest: string)
    requires c !in field
    ensures var s := field + [c] + rest;
            var i := IndexOfChar(s, c);
            i < |s| && s[..i] == field && s[i + 1..] == rest
  {
    FirstOf(field, c, rest);
  }

  lemma ParseOneValue(k: string, v: string, rest: string)
    requires '\n' !in v
    ensures ParseValue(k, v + ['\n'] + rest) == map[k := v] + ParseLines(rest)
  {
    CutAt(v, '\n', rest);
  }

  lemma ParseOneLine(k: string, v: string, rest: string)
    requires '=' !in k && '\n' !in v
    ensures ParseLines(Line(k, v) + rest) == map[k := v] + ParseLines(rest)
  {
    var tail := v + ['\n'] + rest;
    assert Line(k, v) + rest == k + ['='] + tail;
    CutAt(k, '=', tail);
    ParseOneValue(k, v, rest);
  }

  /** The filters of some keys, as a map. */
  function Picked(ks: seq<string>, filters: map<string, string>): map<string, string> {
    map k | k in ks && k in filters :: filters[k]
  }

  lemma PickedStep(ks: seq<string>, filters: map<string, string>)
    requires ks != [] && ks[0] in filters
    ensures Picked(ks, filters) == map[ks[0] := filters[ks[0]]] + Picked(ks[1..], filters)
  {
    assert forall x :: x in ks <==> x == ks[0] || x in ks[1..];
  }

  lemma {:induction false} ParseLinesBack(ks: seq<string>, filters: map<string, string>)
    requires CleanFilters(filters) && forall k :: k in ks ==> k in filters
    ensures ParseLines(Lines(ks, filters)) == Picked(ks, filters)
  {
    if ks != [] {
      assert ks[0] in filters;
      ParseLinesBack(ks[1..], filters);
      ParseOneLine(ks[0], filters[ks[0]], Lines(ks[1..], filters));
      PickedStep(ks, filters);
    }
  }

  lemma ParseSerialized(filters: map<string, string>)
    requires CleanFilters(filters)
    ensures ParseLines(Serialized(filters)) == filters
  {
    var text := Serialized(filters);
    assert Serializes(filters, text);
    var ks :| SortedKeysOf(ks, filters) && text == Lines(ks, filters);
    ParseLinesBack(ks, filters);
    assert Picked(ks, filters) == filters;
  }

  lemma ParseKeyBack(r: Request)
    requires Clean(r)
    ensures ParseKey(Key(r)) == r
  {
    var text := Serialized(r.filters);
    ParseSerialized(r.filters);
    CutAt(r.service, '\n', text);
    assert Key(r) == r.service + ['\n'] + text;
  }

  /** The parser returns nothing but clean requests. */
  lemma ParsedIsClean(key: string)
    ensures Clean(ParseKey(key))
  {
    var n := IndexOfChar(key, '\n');
    NotBefore(key, '\n');
    if n < |key| {
      ParsedLinesAreClean(key[n + 1..]);
    } else {
      assert key[..n] == key;
    }
  }

  lemma {:induction false} ParsedLinesAreClean(text: string)
    ensures CleanFilters(ParseLines(text))
    decreases |text|
  {
    var e := IndexOfChar(text, '=');
    NotBefore(text, '=');
    if e < |text| {
      ParsedValueIsClean(text[..e], text[e + 1..]);
    }
  }

  lemma {:induction false} ParsedValueIsClean(k: string, tail: string)
    requires '=' !in k
    ensures CleanFilters(ParseValue(k, tail))
    decreases |tail|
  {
    var n := IndexOfChar(tail, '\n');
    NotBefore(tail, '\n');
    if n < |tail| {
      ParsedLinesAreClean(tail[n + 1..]);
    } else {
      assert tail[..n] == tail;
    }
  }

  /** The parser undoes the key of exactly the clean requests. */
  lemma ParseKeyExactly(r: Request)
    ensures ParseKey(Key(r)) == r <==> Clean(r)
  {
    if Clean(r) {
      ParseKeyBack(r);
    }
    ParsedIsClean(Key(r));
  }

  /** Clean requests with the same key are the same request. */
  lemma KeyInjective(a: Request, b: Request)
    requires Clean(a) && Clean(b) && Key(a) == Key(b)
    ensures a == b
  {
    ParseKeyBack(a);
    ParseKeyBack(b);
  }

  /** A request that is not clean may share its key: a newline in a value reads as the next
      line. */
  lemma NewlineCollides()
    ensures map["a" := "1\nb=2"] != map["a" := "1", "b" := "2"]
    ensures Serialized(map["a" := "1\nb=2"]) == Serialized(map["a" := "1", "b" := "2"])
  {
    var f, g := map["a" := "1\nb=2"], map["a" := "1", "b" := "2"];
    assert "a"[0] == 'a' && "b"[0] == 'b';
    assert Less("a", "b");
    LinesAre(f, ["a"], "a=1\nb=2\n");
    assert ["a", "b"][1..] == ["b"];
    LinesAre(g, ["a", "b"], "a=1\nb=2\n");
    assert "b" in g && "b" !in f;
  }

  /** And an equals sign in a key reads as its end. */
  lemma EqualsCollides()
    ensures map["a=b" := "c"] != map["a" := "b=c"]
    ensures Serialized(map["a=b" := "c"]) == Serialized(map["a" := "b=c"])
  {
    var h, i := map["a=b" := "c"], map["a" := "b=c"];
    LinesAre(h, ["a=b"], "a=b=c\n");
    LinesAre(i, ["a"], "a=b=c\n");
    assert |"a=b"| == 3 && |"a"| == 1;
    assert "a" in i && "a" !in h;
  }

  lemma LinesAre(filters: map<string, string>, ks: seq<string>, text: string)
    requires SortedKeysOf(ks, filters) && Lines(ks, filters) == text
    ensures Serialized(filters) == text
  {
    SerializesUnique(filters, Serialized(filters), text);
  }
}
