/** String helpers with the meaning of the Python built-ins the program calls. */
module Text {

  /** Python's None, or a value. */
  datatype Option<+T> = None | Some(value: T)

  /** `sub` occurs in `s` starting at index `i`. */
  predicate OccursAt(s: string, sub: string, i: int)
  {
    0 <= i && i + |sub| <= |s| && s[i..i + |sub|] == sub
  }

  /** `s.find(sub)`: the lowest index at which `sub` occurs in `s`, or -1. */
  function Find(s: string, sub: string): (r: int)
    ensures r == -1 || OccursAt(s, sub, r)
    ensures r == -1 <==> forall i :: !OccursAt(s, sub, i)
    ensures forall i :: 0 <= i < r ==> !OccursAt(s, sub, i)
    decreases |s|
  {
    if |sub| > |s| then -1
    else if s[..|sub|] == sub then 0
    else
      var k := Find(s[1..], sub);
      forall j | 1 <= j
        ensures OccursAt(s, sub, j) <==> OccursAt(s[1..], sub, j - 1)
      {
        if j + |sub| <= |s| {
          var a, b := s[j..j + |sub|], s[1..][j - 1..j - 1 + |sub|];
          assert |a| == |b|;
          forall t | 0 <= t < |a| ensures a[t] == b[t] {
            assert a[t] == s[j + t] && b[t] == s[1..][j - 1 + t];
          }
          assert a == b;
        }
      }
      assert !OccursAt(s, sub, 0);
      if k == -1 then -1 else k + 1
  }

  /** `sub in s`, written as the program writes it: `s.find(sub) != -1`. */
  predicate Contains(s: string, sub: string)
  {
    Find(s, sub) != -1
  }

  /** Any occurrence makes `find` succeed. */
  lemma ContainsAt(s: string, sub: string, i: int)
    requires OccursAt(s, sub, i)
    ensures Contains(s, sub)
  {
  }

  /** The one occurrence every append-with-separator produces: the appended part. */
  lemma {:induction false} ContainsAppended(prefix: string, sub: string)
    ensures Contains(prefix + sub, sub)
  {
    var s := prefix + sub;
    assert s[|prefix|..|prefix| + |sub|] == sub;
    ContainsAt(s, sub, |prefix|);
  }

  predicate IsUpper(c: char)
  {
    'A' <= c <= 'Z'
  }

  /** `c.lower()` for the ASCII letters; every other character is kept. */
  function LowerChar(c: char): (r: char)
    ensures !IsUpper(r)
    ensures !IsUpper(c) ==> r == c
    ensures IsUpper(c) ==> r as int - c as int == 'a' as int - 'A' as int
  {
    if IsUpper(c) then (c as int - 'A' as int + 'a' as int) as char else c
  }

  /** `s.lower()`, character by character. */
  function Lower(s: string): (r: string)
    ensures |r| == |s|
    ensures forall i :: 0 <= i < |s| ==> r[i] == LowerChar(s[i])
  {
    seq(|s|, i requires 0 <= i < |s| => LowerChar(s[i]))
  }
}
