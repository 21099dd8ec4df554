/** The white space of Python's str methods and patterns, over ASCII. */
module PythonText {
  import opened Sequences

  predicate IsSpace(c: char) {
    c == ' ' || '\t' <= c <= '\r' || '\U{001C}' <= c <= '\U{001F}'
  }

  function StripLeft(s: string): string {
    if s != "" && IsSpace(s[0]) then StripLeft(s[1..]) else s
  }

  function StripRight(s: string): string {
    if s != "" && IsSpace(Last(s)) then StripRight(Init(s)) else s
  }

  function Strip(s: string): string {
    StripRight(StripLeft(s))
  }

  predicate AllSpaces(s: string) {
    forall i :: 0 <= i < |s| ==> IsSpace(s[i])
  }

  lemma {:induction false} StripLeftIs(s: string) returns (before: string)
    ensures s == before + StripLeft(s) && AllSpaces(before)
    ensures StripLeft(s) != "" ==> !IsSpace(StripLeft(s)[0])
  {
    before := "";
    if s != "" && IsSpace(s[0]) {
      before := StripLeftIs(s[1..]);
      before := [s[0]] + before;
    }
  }

  lemma {:induction false} StripRightIs(s: string) returns (after: string)
    ensures s == StripRight(s) + after && AllSpaces(after)
    ensures StripRight(s) != "" ==> !IsSpace(Last(StripRight(s)))
  {
    after := "";
    if s != "" && IsSpace(Last(s)) {
      var rest := StripRightIs(Init(s));
      after := rest + [Last(s)];
      SplitLast(s);
      assert StripRight(s) + after == StripRight(s) + rest + [Last(s)];
    }
  }

  /** Stripping takes away white space at both ends, and all of it. */
  lemma {:induction false} StripIs(s: string) returns (before: string, after: string)
    ensures s == before + Strip(s) + after && AllSpaces(before) && AllSpaces(after)
    ensures Strip(s) != "" ==> !IsSpace(Strip(s)[0]) && !IsSpace(Last(Strip(s)))
  {
    before := StripLeftIs(s);
    after := StripRightIs(StripLeft(s));
    assert Strip(s) != "" ==> Strip(s)[0] == StripLeft(s)[0];
  }
}
