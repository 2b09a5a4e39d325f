/** The aliases of internal/opencode/tool_alias.go: client tool names that could be
    confused with a compatibility tool, or with an alias, are lowered to
    "w2a_" + 24 hexadecimal digits of a digest + as many '_' as it takes.  The
    digest is a parameter; distinct client names are taken to have distinct digests. */
module ToolAliasSet {

  type Name = string

  const PREFIX: Name := "w2a_"

  const CORE: set<Name> := {"shell", "read"}

  /** opencode_tools.json, and "bash". */
  const OFFICIAL: set<Name> := {
    "edit", "execute", "glob", "grep", "question", "read", "shell", "skill",
    "subagent", "webfetch", "websearch", "write", "bash"}

  // ------------------------------------------------------ order and search

  predicate Less(a: Name, b: Name) {
    |b| > 0 && (|a| == 0 || a[0] < b[0] || (a[0] == b[0] && Less(a[1..], b[1..])))
  }

  lemma {:induction false} LessTransitive(a: Name, b: Name, c: Name)
    requires !Less(b, a) && !Less(c, b)
    ensures !Less(c, a)
  {
    if |a| > 0 && |b| > 0 && |c| > 0 && a[0] == b[0] == c[0] {
      LessTransitive(a[1..], b[1..], c[1..]);
    }
  }

  lemma {:induction false} PrefixNotAbove(p: Name, r: Name)
    requires p <= r
    ensures !Less(r, p)
  {
    if |p| > 0 {
      assert p[0] == r[0] && p[1..] <= r[1..];
      PrefixNotAbove(p[1..], r[1..]);
    }
  }

  /** Everything between a prefix and one of its extensions extends the prefix. */
  lemma {:induction false} BetweenPrefix(p: Name, s: Name, r: Name)
    requires p <= r && !Less(s, p) && !Less(r, s)
    ensures p <= s
  {
    if |p| > 0 {
      assert p[0] == r[0] && p[1..] <= r[1..];
      BetweenPrefix(p[1..], s[1..], r[1..]);
    }
  }

  predicate Sorted(s: seq<Name>) { forall i, j :: 0 <= i < j < |s| ==> !Less(s[j], s[i]) }

  /** The position at which `name` would be inserted, by binary search. */
  method Search(sorted: seq<Name>, name: Name) returns (i: nat)
    requires Sorted(sorted)
    ensures i <= |sorted|
    ensures forall j :: 0 <= j < i ==> Less(sorted[j], name)
    ensures forall j :: i <= j < |sorted| ==> !Less(sorted[j], name)
  {
    var high := |sorted|;
    i := 0;
    while i < high
      invariant i <= high <= |sorted|
      invariant forall j :: 0 <= j < i ==> Less(sorted[j], name)
      invariant forall j :: high <= j < |sorted| ==> !Less(sorted[j], name)
    {
      var mid := (i + high) / 2;
      if Less(sorted[mid], name) {
        forall j | 0 <= j < mid ensures Less(sorted[j], name) {
          if !Less(sorted[j], name) { LessTransitive(name, sorted[j], sorted[mid]); }
        }
        i := mid + 1;
      } else {
        forall j | mid <= j < |sorted| ensures !Less(sorted[j], name) {
          if mid < j { LessTransitive(name, sorted[mid], sorted[j]); }
        }
        high := mid;
      }
    }
  }

  lemma {:induction false} LessAntisymmetric(a: Name, b: Name)
    requires Less(a, b)
    ensures !Less(b, a)
  {
    if |a| > 0 && a[0] == b[0] { LessAntisymmetric(a[1..], b[1..]); }
  }

  lemma NotBelowItself(r: Name)
    ensures !Less(r, r)
  {
    if Less(r, r) { LessAntisymmetric(r, r); }
  }

  lemma InsertionPointDecides(reserved: seq<Name>, name: Name, i: nat)
    requires Sorted(reserved) && i <= |reserved|
    requires forall j :: 0 <= j < i ==> Less(reserved[j], name)
    requires forall j :: i <= j < |reserved| ==> !Less(reserved[j], name)
    ensures (i < |reserved| && name <= reserved[i]) <==> exists j :: 0 <= j < |reserved| && name <= reserved[j]
  {
    if j :| 0 <= j < |reserved| && name <= reserved[j] {
      PrefixNotAbove(name, reserved[j]);
      NotBelowItself(reserved[j]);
      BetweenPrefix(name, reserved[i], reserved[j]);
    }
  }

  /** Looking only at the insertion point finds every conflict. */
  method Conflicts(reserved: seq<Name>, name: Name) returns (conflict: bool)
    requires Sorted(reserved)
    ensures conflict <==> exists r :: r in reserved && name <= r
  {
    var i := Search(reserved, name);
    conflict := i < |reserved| && name <= reserved[i];
    InsertionPointDecides(reserved, name, i);
    if r :| r in reserved && name <= r {
      var j :| 0 <= j < |reserved| && reserved[j] == r;
      assert name <= reserved[j];
    }
    if conflict {
      assert reserved[i] in reserved;
    }
  }

  lemma InsertKeepsSorted(s: seq<Name>, k: nat, name: Name)
    requires Sorted(s) && k <= |s|
    requires forall j :: 0 <= j < k ==> Less(s[j], name)
    requires forall j :: k <= j < |s| ==> !Less(s[j], name)
    ensures Sorted(s[..k] + [name] + s[k..])
    ensures forall n :: n in s[..k] + [name] + s[k..] <==> n in s || n == name
  {
    forall j | 0 <= j < k ensures !Less(name, s[j]) { LessAntisymmetric(s[j], name); }
    hide Less;
    var r := s[..k] + [name] + s[k..];
    assert forall j :: 0 <= j < |r| ==> r[j] == if j < k then s[j] else if j == k then name else s[j - 1];
    assert s == s[..k] + s[k..];
  }

  method Sort(names: seq<Name>) returns (sorted: seq<Name>)
    ensures Sorted(sorted) && forall n :: n in sorted <==> n in names
  {
    sorted := [];
    for i := 0 to |names|
      invariant Sorted(sorted) && forall n :: n in sorted <==> n in names[..i]
    {
      var k := Search(sorted, names[i]);
      InsertKeepsSorted(sorted, k, names[i]);
      sorted := sorted[..k] + [names[i]] + sorted[k..];
      assert names[..i + 1] == names[..i] + [names[i]];
    }
    assert names[..|names|] == names;
  }

  // ------------------------------------------------------------ what is aliased

  type Digest = Name -> Name

  /** The digest has 24 digits and separates the client's names. */
  ghost predicate Separates(digest: Digest, used: set<Name>) {
    && (forall n: Name :: |digest(n)| == 24)
    && (forall n, m :: n in used && m in used && digest(n) == digest(m) ==> n == m)
  }

  /** Names the lowering protects: the injected compatibility tools and the
      client's own official names. */
  function Reserved(used: set<Name>, compatibility: bool): set<Name> {
    (if compatibility then CORE else {}) + used * OFFICIAL
  }

  /** Names that may not reach the upstream as they are. */
  ghost predicate Ambiguous(name: Name, used: set<Name>, compatibility: bool) {
    || (exists r :: r in Reserved(used, compatibility) && name <= r)
    || name <= PREFIX
    || PREFIX <= name
  }

  ghost predicate Aliased(name: Name, used: set<Name>, anonymous: bool, compatibility: bool) {
    && name in used
    && (anonymous || (Reserved(used, compatibility) != {} && Ambiguous(name, used, compatibility)))
  }

  function Longer(used: set<Name>, n: nat): set<Name> { set u | u in used && |u| >= n }

  lemma OneFewerLonger(used: set<Name>, alias: Name)
    requires alias in used
    ensures |Longer(used, |alias| + 1)| < |Longer(used, |alias|)|
  {
    var a, b := Longer(used, |alias| + 1), Longer(used, |alias|);
    assert a <= b - {alias};
    SubsetSmaller(a, b - {alias});
  }

  lemma {:induction false} SubsetSmaller(a: set<Name>, b: set<Name>)
    requires a <= b
    ensures |a| <= |b|
  {
    if a != {} {
      var x :| x in a;
      SubsetSmaller(a - {x}, b - {x});
    }
  }

  /** The first of alias, alias_, alias__, ... that is no client name. */
  function FirstUnused(alias: Name, used: set<Name>): (unused: Name)
    ensures unused !in used && alias <= unused
    decreases |Longer(used, |alias|)|
  {
    if alias in used then
      OneFewerLonger(used, alias);
      FirstUnused(alias + "_", used)
    else alias
  }

  function Alias(name: Name, used: set<Name>, digest: Digest): Name { FirstUnused(PREFIX + digest(name), used) }

  /** `whole` is `base` with underscores behind it, and every shorter such name is
      in use. */
  predicate Underscored(base: Name, whole: Name, used: set<Name>) {
    base <= whole && forall i :: |base| <= i < |whole| ==> whole[i] == '_' && whole[..i] in used
  }

  lemma {:induction false} UnusedShape(alias: Name, used: set<Name>)
    ensures Underscored(alias, FirstUnused(alias, used), used)
    decreases |Longer(used, |alias|)|
  {
    if alias in used {
      OneFewerLonger(used, alias);
      UnusedShape(alias + "_", used);
      var r := FirstUnused(alias + "_", used);
      assert r == FirstUnused(alias, used) && alias + "_" <= r;
      forall i | |alias| <= i < |r| ensures r[i] == '_' && r[..i] in used {
        if i == |alias| {
          assert r[..i] == alias;
        }
      }
    }
  }

  /** An alias is the prefix, the digest and as many underscores as it takes to be no
      client name. */
  lemma AliasShape(name: Name, used: set<Name>, digest: Digest)
    ensures Underscored("w2a_" + digest(name), Alias(name, used, digest), used)
    ensures Alias(name, used, digest) !in used
  {
    UnusedShape(PREFIX + digest(name), used);
  }

  /** The loop that appends underscores. */
  method FreshAlias(name: Name, used: set<Name>, digest: Digest) returns (alias: Name)
    ensures alias == Alias(name, used, digest)
  {
    alias := PREFIX + digest(name);
    while alias in used
      invariant FirstUnused(alias, used) == Alias(name, used, digest)
      decreases |Longer(used, |alias|)|
    {
      OneFewerLonger(used, alias);
      alias := alias + "_";
    }
  }

  /** What AliasClientTools promises about its two maps. */
  ghost predicate Tables(used: set<Name>, anonymous: bool, compatibility: bool, digest: Digest,
                         forward: map<Name, Name>, reverse: map<Name, Name>) {
    && Separates(digest, used)
    && (forall n :: n in forward <==> Aliased(n, used, anonymous, compatibility))
    && (forall n :: n in forward ==> forward[n] == Alias(n, used, digest))
    && (forall n :: n in forward ==> forward[n] in reverse && reverse[forward[n]] == n)
    && (forall a :: a in reverse ==> reverse[a] in forward && forward[reverse[a]] == a)
  }

  /** The names the client's tools carry; unnamed tools are skipped. */
  method ToolNames(tools: seq<Name>) returns (names: set<Name>)
    ensures names == set n | n in tools && n != ""
  {
    names := {};
    for i := 0 to |tools|
      invariant names == set n | n in tools[..i] && n != ""
    {
      if tools[i] != "" {
        names := names + {tools[i]};
      }
      assert tools[..i + 1] == tools[..i] + [tools[i]];
    }
    assert tools[..|tools|] == tools;
  }

  method ReservedNames(names: set<Name>, compatibility: bool) returns (reserved: seq<Name>)
    ensures forall n :: n in reserved <==> n in Reserved(names, compatibility)
    ensures |reserved| == 0 <==> Reserved(names, compatibility) == {}
  {
    reserved := if compatibility then ["shell", "read"] else [];
    var todo := names;
    while todo != {}
      invariant todo <= names
      invariant forall n :: n in reserved <==> (compatibility && n in CORE) || (n in names - todo && n in OFFICIAL)
      decreases |todo|
    {
      var name :| name in todo;
      if name in OFFICIAL {
        reserved := reserved + [name];
      }
      todo := todo - {name};
    }
    EmptyReserved(reserved, names, compatibility);
  }

  /** The lowering loop, over the names in any order. */
  method LowerNames(names: set<Name>, anonymous: bool, compatibility: bool, digest: Digest, sorted: seq<Name>)
    returns (forward: map<Name, Name>, reverse: map<Name, Name>)
    requires Separates(digest, names) && Sorted(sorted)
    requires forall n :: n in sorted <==> n in Reserved(names, compatibility)
    requires anonymous || Reserved(names, compatibility) != {}
    ensures Tables(names, anonymous, compatibility, digest, forward, reverse)
  {
    forward, reverse := map[], map[];
    var todo := names;
    hide Reserved, Alias, Sorted;
    while todo != {}
      invariant todo <= names
      invariant forall n :: n in forward <==> n in names - todo && Aliased(n, names, anonymous, compatibility)
      invariant forall n :: n in forward ==> forward[n] == Alias(n, names, digest)
      invariant forall n :: n in forward ==> forward[n] in reverse && reverse[forward[n]] == n
      invariant forall a :: a in reverse ==> reverse[a] in forward && forward[reverse[a]] == a
      decreases |todo|
    {
      var name :| name in todo;
      var conflicts := Conflicts(sorted, name);
      if anonymous || conflicts || name <= PREFIX || PREFIX <= name {
        var alias := FreshAlias(name, names, digest);
        AliasesDiffer(name, names, digest);
        forward, reverse := forward[name := alias], reverse[alias := name];
      }
      todo := todo - {name};
    }
  }

  /** aliasClientTools: the maps from names to aliases and back; both stay empty
      when nothing is reserved and the request is not anonymous. */
  method AliasClientTools(tools: seq<Name>, anonymous: bool, compatibility: bool, digest: Digest)
    returns (forward: map<Name, Name>, reverse: map<Name, Name>)
    requires Separates(digest, (set n | n in tools && n != ""))
    ensures Tables((set n | n in tools && n != ""), anonymous, compatibility, digest, forward, reverse)
  {
    var names := ToolNames(tools);
    var reserved := ReservedNames(names, compatibility);
    if !anonymous && |reserved| == 0 {
      return map[], map[];
    }
    var sorted := Sort(reserved);
    forward, reverse := LowerNames(names, anonymous, compatibility, digest, sorted);
  }

  lemma EmptyReserved(reserved: seq<Name>, used: set<Name>, compatibility: bool)
    requires forall n :: n in reserved <==> n in Reserved(used, compatibility)
    ensures |reserved| == 0 <==> Reserved(used, compatibility) == {}
  {
    if |reserved| > 0 {
      assert reserved[0] in reserved;
    } else {
      assert forall n :: n in Reserved(used, compatibility) ==> n in reserved;
    }
  }

  // ----------------------------------------------------------------- soundness

  /** Two aliases differ within their first 28 characters, so neither is a prefix
      of the other, and no alias is a client name. */
  lemma AliasesPrefixFree(n: Name, m: Name, used: set<Name>, digest: Digest)
    requires Separates(digest, used) && n in used && m in used && n != m
    ensures !(Alias(n, used, digest) <= Alias(m, used, digest))
    ensures Alias(n, used, digest) !in used
  {
    var a, b := Alias(n, used, digest), Alias(m, used, digest);
    if a <= b {
      SameStart(digest(n), digest(m), a, b);
    }
  }

  lemma SameStart(d: Name, e: Name, a: Name, b: Name)
    requires |d| == |e| && PREFIX + d <= a && PREFIX + e <= b && a <= b
    ensures d == e
  {
    var n := 4 + |d|;
    assert PREFIX + d == a[..n] && PREFIX + e == b[..n] && a[..n] == b[..n];
    assert d == (PREFIX + d)[4..] && e == (PREFIX + e)[4..];
  }

  lemma AliasesDiffer(n: Name, used: set<Name>, digest: Digest)
    requires Separates(digest, used) && n in used
    ensures forall m :: m in used && m != n ==> Alias(m, used, digest) != Alias(n, used, digest)
  {
    forall m | m in used && m != n ensures Alias(m, used, digest) != Alias(n, used, digest) {
      AliasesPrefixFree(n, m, used, digest);
    }
  }

  function Lower(forward: map<Name, Name>, name: Name): Name { if name in forward then forward[name] else name }

  function Restore(reverse: map<Name, Name>, name: Name): Name { if name in reverse then reverse[name] else name }

  /** Restoring after lowering gives back every client name, aliased or not. */
  lemma RestoreUndoesLower(used: set<Name>, anonymous: bool, compatibility: bool, digest: Digest,
                           forward: map<Name, Name>, reverse: map<Name, Name>, name: Name)
    requires Tables(used, anonymous, compatibility, digest, forward, reverse) && name in used
    ensures Restore(reverse, Lower(forward, name)) == name
  {
    forall a | a in reverse ensures a !in used {
      assert reverse[a] in forward;
    }
  }

  /** The names the stream rewriter refuses to see selected. */
  function Blocked(reverse: map<Name, Name>, compatibility: bool): set<Name> {
    reverse.Values + (if compatibility then CORE else {})
  }

  /** A client name that went out unchanged can never be mistaken for the start of
      an alias or of a refused name. */
  lemma PlainNamesAreNeverHeld(used: set<Name>, anonymous: bool, compatibility: bool, digest: Digest,
                               forward: map<Name, Name>, reverse: map<Name, Name>, name: Name, other: Name)
    requires Tables(used, anonymous, compatibility, digest, forward, reverse)
    requires name in used && name !in forward && name <= other
    ensures other !in reverse && other !in Blocked(reverse, compatibility)
  {
    if other in reverse || other in Blocked(reverse, compatibility) {
      NamesToConfuseAreAliased(used, anonymous, compatibility, digest, forward, reverse, name, other);
    }
  }

  lemma NamesToConfuseAreAliased(used: set<Name>, anonymous: bool, compatibility: bool, digest: Digest,
                                 forward: map<Name, Name>, reverse: map<Name, Name>, name: Name, other: Name)
    requires Tables(used, anonymous, compatibility, digest, forward, reverse)
    requires name in used && name <= other && (other in reverse || other in Blocked(reverse, compatibility))
    ensures name in forward
  {
    if other in reverse {
      assert PREFIX <= other by { assert reverse[other] in forward; }
      assert Aliased(reverse[other], used, anonymous, compatibility);
      PrefixesOfOne(name, PREFIX, other);
    } else if compatibility && other in CORE {
      assert other in Reserved(used, compatibility);
    } else {
      var a :| a in reverse && reverse[a] == other;
      assert other in forward && Aliased(other, used, anonymous, compatibility);
      if PREFIX <= other {
        PrefixesOfOne(name, PREFIX, other);
      } else if r :| r in Reserved(used, compatibility) && other <= r {
        assert name <= r;
      }
    }
    assert anonymous || Ambiguous(name, used, compatibility);
  }

  lemma PrefixesOfOne(a: Name, b: Name, whole: Name)
    requires a <= whole && b <= whole
    ensures a <= b || b <= a
  {
    if |a| <= |b| {
      assert a == whole[..|a|] && b == whole[..|b|];
    }
  }

  /** No alias is refused. */
  lemma AliasesAreNotBlocked(used: set<Name>, anonymous: bool, compatibility: bool, digest: Digest,
                             forward: map<Name, Name>, reverse: map<Name, Name>, alias: Name)
    requires Tables(used, anonymous, compatibility, digest, forward, reverse) && alias in reverse
    ensures alias !in Blocked(reverse, compatibility)
  {
    assert reverse[alias] in forward && PREFIX <= alias && alias !in used;
    forall a | a in reverse ensures reverse[a] in used {
      assert reverse[a] in forward;
    }
    assert alias[0] == 'w';
  }

  /** The only refused names that can be the start of an alias are client names
      that are themselves prefixes of an alias; a client none of whose tools is
      called "w", "w2", "w2a", "w2a_..." has none. */
  lemma BlockedPrefixIsAClientName(used: set<Name>, anonymous: bool, compatibility: bool, digest: Digest,
                                   forward: map<Name, Name>, reverse: map<Name, Name>, alias: Name, start: Name)
    requires Tables(used, anonymous, compatibility, digest, forward, reverse) && alias in reverse
    requires start in Blocked(reverse, compatibility) && start <= alias && |start| > 0
    ensures start in used && (start <= PREFIX || PREFIX <= start)
  {
    assert reverse[alias] in forward && PREFIX <= alias;
    PrefixesOfOne(start, PREFIX, alias);
    if start in CORE {
      assert start[0] == alias[0] == 'w';
    } else {
      var a :| a in reverse && reverse[a] == start;
      assert start in forward;
    }
  }

  /** An anonymous request hides every tool of the client. */
  lemma AnonymousHidesAll(used: set<Name>, compatibility: bool, digest: Digest,
                          forward: map<Name, Name>, reverse: map<Name, Name>)
    requires Tables(used, true, compatibility, digest, forward, reverse)
    ensures forward.Keys == used
  {
  }

  /** Any other request whose tools share no start with an official name or with the
      aliases goes out as it came. */
  lemma HarmlessRequestUntouched(used: set<Name>, compatibility: bool, digest: Digest,
                                 forward: map<Name, Name>, reverse: map<Name, Name>)
    requires Tables(used, false, compatibility, digest, forward, reverse)
    requires forall n, o :: n in used && o in OFFICIAL ==> !(n <= o)
    requires forall n :: n in used ==> !(n <= PREFIX) && !(PREFIX <= n)
    ensures forward == map[] && reverse == map[]
  {
    assert forall r :: r in Reserved(used, compatibility) ==> r in OFFICIAL;
    assert forall n :: n in used ==> !Aliased(n, used, false, compatibility);
    assert forall n :: n !in forward;
    assert forall a :: a !in reverse;
  }
}
