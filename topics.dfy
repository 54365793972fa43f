/** Topic strings of the console: the root it subscribes under, the removal
    of that root from an incoming topic, and the command topic of a channel.

    The console removes the root with JavaScript's `String.prototype.replace`
    called with a string pattern, which deletes the FIRST occurrence of the
    pattern wherever it stands in the topic, not only at its start. */
module Topics {
  import opened Wrappers

  const TopicRoot: string := "bio/v1"

  /** What is removed from every incoming topic: the root and its slash. */
  const RootPrefix: string := TopicRoot + "/"

  predicate OccursAt(s: string, pat: string, i: nat) {
    i + |pat| <= |s| && s[i..i + |pat|] == pat
  }

  /** `i` is where the leftmost occurrence of `pat` in `s` starts. */
  predicate FirstOccurrence(s: string, pat: string, i: nat) {
    OccursAt(s, pat, i) && forall j: nat :: j < i ==> !OccursAt(s, pat, j)
  }

  /** The leftmost occurrence of `pat` in `s` at or after `from`. */
  function IndexOf(s: string, pat: string, from: nat): (r: Option<nat>)
    requires from <= |s|
    ensures r.Some? ==> from <= r.value && OccursAt(s, pat, r.value)
    ensures r.Some? ==> forall j: nat :: from <= j < r.value ==> !OccursAt(s, pat, j)
    ensures r.None? ==> forall j: nat :: from <= j ==> !OccursAt(s, pat, j)
    decreases |s| - from
  {
    if |s| < from + |pat| then None
    else if s[from..from + |pat|] == pat then Some(from)
    else IndexOf(s, pat, from + 1)
  }

  /** `s.replace(pat, rep)` for a string pattern: the leftmost occurrence of
      `pat` is replaced by `rep`; without an occurrence `s` is returned. */
  function ReplaceFirst(s: string, pat: string, rep: string): (r: string)
    ensures (forall j: nat :: !OccursAt(s, pat, j)) ==> r == s
    ensures forall i: nat :: FirstOccurrence(s, pat, i) ==> r == s[..i] + rep + s[i + |pat|..]
  {
    match IndexOf(s, pat, 0)
    case None => s
    case Some(i) => s[..i] + rep + s[i + |pat|..]
  }

  /** The topic path the message switch looks at. */
  function StripRoot(topic: string): (path: string)
    ensures (forall j: nat :: !OccursAt(topic, RootPrefix, j)) ==> path == topic
    ensures forall i: nat :: FirstOccurrence(topic, RootPrefix, i) ==>
      |path| == |topic| - |RootPrefix| && path == topic[..i] + topic[i + |RootPrefix|..]
  {
    ReplaceFirst(topic, RootPrefix, "")
  }

  /** Every topic delivered under the `bio/v1/#` subscription starts with the
      root, and for those the switch sees exactly what follows it. */
  lemma StripRootOfRooted(rest: string)
    ensures StripRoot(RootPrefix + rest) == rest
  {
    var t := RootPrefix + rest;
    assert t[0..|RootPrefix|] == RootPrefix;
    assert FirstOccurrence(t, RootPrefix, 0);
    assert t[|RootPrefix|..] == rest;
  }

  /** A topic that does not contain the root reaches the switch unchanged. */
  lemma StripRootOfUnrooted(topic: string)
    requires forall j: nat :: !OccursAt(topic, RootPrefix, j)
    ensures StripRoot(topic) == topic
  {
  }

  /** The root is removed where it first occurs, not only at the start: a
      topic with one leading segment before the root loses the root from its
      middle. */
  lemma StripRootInside(c: char, rest: string)
    requires c != 'b'
    ensures StripRoot([c, '/'] + RootPrefix + rest) == [c, '/'] + rest
  {
    var t := [c, '/'] + RootPrefix + rest;
    assert !OccursAt(t, RootPrefix, 0) by { assert t[0] != RootPrefix[0]; }
    assert !OccursAt(t, RootPrefix, 1) by { assert t[1] != RootPrefix[0]; }
    assert t[2..2 + |RootPrefix|] == RootPrefix;
    assert FirstOccurrence(t, RootPrefix, 2);
    assert t[..2] == [c, '/'];
    assert t[2 + |RootPrefix|..] == rest;
  }
}
