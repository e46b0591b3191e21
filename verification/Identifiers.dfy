/** Nstance identifiers, and names that join two of them with a double hyphen. */
module Identifiers {

  const MAX_LENGTH := 32

  predicate Alnum(c: char) {
    'a' <= c <= 'z' || '0' <= c <= '9'
  }

  /** Matches one or more alphanumerics, then any number of hyphenated segments. */
  predicate Matches(s: string) {
    s != [] && Alnum(s[0]) && MatchesRest(s[1..])
  }

  predicate MatchesRest(s: string) {
    s == [] || (Alnum(s[0]) && MatchesRest(s[1..])) || (s[0] == '-' && Matches(s[1..]))
  }

  predicate Valid(value: string) {
    value != "" && |value| <= MAX_LENGTH && Matches(value)
  }

  /** Lowercase alphanumerics and hyphens, with no leading, trailing or consecutive hyphens. */
  ghost predicate WellSpelled(s: string) {
    && s != [] && s[0] != '-' && s[|s| - 1] != '-'
    && (forall i :: 0 <= i < |s| ==> Alnum(s[i]) || s[i] == '-')
    && (forall i :: 0 <= i < |s| - 1 ==> s[i] != '-' || s[i + 1] != '-')
  }

  ghost predicate WellSpelledRest(s: string) {
    && (s != [] ==> s[|s| - 1] != '-')
    && (forall i :: 0 <= i < |s| ==> Alnum(s[i]) || s[i] == '-')
    && (forall i :: 0 <= i < |s| - 1 ==> s[i] != '-' || s[i + 1] != '-')
  }

  lemma {:induction false} MatchesRestIsWellSpelled(s: string)
    ensures MatchesRest(s) <==> WellSpelledRest(s)
    decreases |s|
  {
    if s != [] {
      var t := s[1..];
      MatchesRestIsWellSpelled(t);
      assert forall i :: 0 <= i < |t| ==> t[i] == s[i + 1];
      if s[0] == '-' {
        if t != [] {
          MatchesRestIsWellSpelled(t[1..]);
          assert forall i :: 0 <= i < |t| - 1 ==> t[1..][i] == s[i + 2];
        }
        HyphenRest(s);
      } else {
        AlnumRest(s);
      }
    }
  }

  lemma AlnumRest(s: string)
    requires s != [] && s[0] != '-'
    ensures WellSpelledRest(s) <==> Alnum(s[0]) && WellSpelledRest(s[1..])
  {
  }

  lemma HyphenRest(s: string)
    requires s != [] && s[0] == '-'
    ensures WellSpelledRest(s) <==> s[1..] != [] && Alnum(s[1]) && WellSpelledRest(s[1..])
  {
  }

  /** The pattern matches exactly the texts its documentation describes. */
  lemma ValidIsWellSpelled(s: string)
    ensures Valid(s) <==> WellSpelled(s) && |s| <= MAX_LENGTH
  {
    if s != [] {
      MatchesRestIsWellSpelled(s[1..]);
      AlnumOrHyphen(s);
    }
  }

  lemma AlnumOrHyphen(s: string)
    requires s != []
    ensures WellSpelled(s) <==> Alnum(s[0]) && WellSpelledRest(s[1..])
  {
  }

  /** NstanceShardGroupName */
  function ShardGroupName(group: string, shard: string): string {
    group + "--" + shard
  }

  /** Where a double hyphen first starts, or the length if there is none. */
  function FirstDouble(s: string): (k: nat)
    ensures k <= |s|
  {
    if |s| < 2 then |s|
    else if s[0] == '-' && s[1] == '-' then 0
    else 1 + FirstDouble(s[1..])
  }

  lemma {:induction false} FirstDoubleAfter(g: string, shard: string)
    requires g == [] || g[|g| - 1] != '-'
    requires forall i :: 0 <= i < |g| - 1 ==> g[i] != '-' || g[i + 1] != '-'
    ensures FirstDouble(g + "--" + shard) == |g|
  {
    var s := g + "--" + shard;
    if g == [] {
      assert s[0] == '-' && s[1] == '-';
    } else {
      assert s[1..] == g[1..] + "--" + shard;
      assert s[0] == g[0] && (|g| > 1 ==> s[1] == g[1]);
      FirstDoubleAfter(g[1..], shard);
    }
  }

  /** Splitting at the first double hyphen gives back the group and the shard. */
  lemma NameDecodes(group: string, shard: string)
    requires Valid(group)
    ensures var name := ShardGroupName(group, shard); var k := FirstDouble(name);
      k + 2 <= |name| && name[..k] == group && name[k + 2..] == shard
  {
    ValidIsWellSpelled(group);
    FirstDoubleAfter(group, shard);
  }

  /** Different pairs of identifiers have different names. */
  lemma NameInjective(group: string, shard: string, group': string, shard': string)
    requires Valid(group) && Valid(group') && ShardGroupName(group, shard) == ShardGroupName(group', shard')
    ensures group == group' && shard == shard'
  {
    NameDecodes(group, shard);
    NameDecodes(group', shard');
  }

  /** Without validation two pairs can share a name. */
  lemma UnvalidatedNamesClash()
    ensures ShardGroupName("a-", "b") == ShardGroupName("a", "-b") && !Valid("a-") && !Valid("-b") && Valid("a")
    ensures Valid("b")
  {
  }
}
