/** The product's membership predicate `ifHaveGroup`: the regular
    expression `^(.*\.)*istio\.io$`, as JavaScript reads it, decides which
    API groups belong to the istio product. */
module Product {

  const Suffix: string := "istio.io"

  /** The characters JavaScript's `.` does not match. */
  predicate IsLineTerminator(c: char) {
    c == '\n' || c == '\r' || c == '\U{2028}' || c == '\U{2029}'
  }

  predicate NoLineTerminator(s: string) {
    forall i :: 0 <= i < |s| ==> !IsLineTerminator(s[i])
  }

  /** One repetition of the group `(.*\.)`. */
  predicate IsSegment(t: string) {
    0 < |t| && t[|t| - 1] == '.' && NoLineTerminator(t)
  }

  predicate AllSegments(ts: seq<string>) {
    forall i :: 0 <= i < |ts| ==> IsSegment(ts[i])
  }

  function Concat(ts: seq<string>): string {
    if ts == [] then "" else ts[0] + Concat(ts[1..])
  }

  /** The pattern read off its structure: any number of segments, then
      `istio.io`, with the anchors covering the whole string. */
  ghost predicate MatchesPattern(s: string) {
    exists ts :: AllSegments(ts) && s == Concat(ts) + Suffix
  }

  /** The pattern as a direct decision: the string is `istio.io`, or ends
      in `.istio.io`, and has no line terminator in it. */
  predicate IsIstioGroup(group: string) {
    && NoLineTerminator(group)
    && |Suffix| <= |group|
    && group[|group| - |Suffix|..] == Suffix
    && (|group| == |Suffix| || group[|group| - |Suffix| - 1] == '.')
  }

  lemma NoLineTerminatorAppend(a: string, b: string)
    requires NoLineTerminator(a) && NoLineTerminator(b)
    ensures NoLineTerminator(a + b)
  {
  }

  /** Whatever the segments, what they spell is empty or ends in a dot,
      and holds no line terminator. */
  lemma {:induction false} ConcatOfSegments(ts: seq<string>)
    requires AllSegments(ts)
    ensures NoLineTerminator(Concat(ts))
    ensures Concat(ts) == "" || Concat(ts)[|Concat(ts)| - 1] == '.'
  {
    if ts != [] {
      var rest := ts[1..];
      assert AllSegments(rest) by {
        forall i | 0 <= i < |rest| ensures IsSegment(rest[i]) {
          assert rest[i] == ts[i + 1];
        }
      }
      ConcatOfSegments(rest);
      assert IsSegment(ts[0]);
      NoLineTerminatorAppend(ts[0], Concat(rest));
    }
  }

  /** The direct test decides exactly the strings the pattern matches. */
  lemma IsIstioGroupMatchesPattern(group: string)
    ensures IsIstioGroup(group) <==> MatchesPattern(group)
  {
    if IsIstioGroup(group) {
      var p := group[..|group| - |Suffix|];
      assert group == p + Suffix;
      if p == "" {
        assert Concat([]) == "";
        assert AllSegments([]) && group == Concat([]) + Suffix;
      } else {
        assert NoLineTerminator(p) by {
          forall i | 0 <= i < |p| ensures !IsLineTerminator(p[i]) {
            assert p[i] == group[i];
          }
        }
        assert IsSegment(p);
        assert Concat([p]) == p + Concat([]);
        assert AllSegments([p]) && group == Concat([p]) + Suffix;
      }
    }
    if MatchesPattern(group) {
      var ts :| AllSegments(ts) && group == Concat(ts) + Suffix;
      var p := Concat(ts);
      ConcatOfSegments(ts);
      assert NoLineTerminator(Suffix);
      NoLineTerminatorAppend(p, Suffix);
      assert group[|group| - |Suffix|..] == Suffix;
      if p != "" {
        assert group[|group| - |Suffix| - 1] == p[|p| - 1];
      }
    }
  }

  /** `ifHaveGroup`: whether an API group belongs to the istio product. */
  function IfHaveGroup(group: string): (belongs: bool)
    ensures belongs <==> MatchesPattern(group)
  {
    IsIstioGroupMatchesPattern(group);
    IsIstioGroup(group)
  }

  lemma AcceptsApex()
    ensures MatchesPattern("istio.io")
  {
    assert IfHaveGroup("istio.io");
  }

  /** Every sub-group of `istio.io` belongs, as long as its name has no
      line terminator (JavaScript's `.` rejects those). */
  lemma AcceptsSubgroup(prefix: string)
    requires NoLineTerminator(prefix)
    ensures MatchesPattern(prefix + "." + Suffix)
  {
    assert IfHaveGroup(prefix + "." + Suffix);
  }

  /** A line terminator anywhere keeps a group out, dot or no dot. */
  lemma RejectsLineTerminator(group: string, i: nat)
    requires i < |group| && IsLineTerminator(group[i])
    ensures !MatchesPattern(group)
  {
    assert !IfHaveGroup(group);
  }

  /** A group that does not end in `istio.io` is not the product's. */
  lemma RejectsOtherSuffix(group: string)
    requires |group| < |Suffix| || group[|group| - |Suffix|..] != Suffix
    ensures !MatchesPattern(group)
  {
  }

  /** `xistio.io`-like groups: the character before `istio.io` must be a dot. */
  lemma RejectsUndottedPrefix(prefix: string, c: char)
    requires c != '.'
    ensures !MatchesPattern(prefix + [c] + Suffix)
  {
    var group := prefix + [c] + Suffix;
    assert !IfHaveGroup(group);
  }
}
