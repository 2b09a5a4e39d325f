/** The aliases of one request and the stream that answers it, together. */
module ToolAliasTheorems {
  import Names = ToolAliasSet
  import Stream = ToolAliasStream

  type Name = string

  /** The tables the response writer of a request is built with. */
  function StreamTables(reverse: map<Name, Name>, compatibility: bool): Stream.Tables {
    Stream.Tables(reverse, Names.Blocked(reverse, compatibility))
  }

  /** The tables built from the lowered names are sound for the stream. */
  lemma LoweredTablesAreSound(used: set<Name>, anonymous: bool, compatibility: bool, digest: Names.Digest,
                              forward: map<Name, Name>, reverse: map<Name, Name>)
    requires Names.Tables(used, anonymous, compatibility, digest, forward, reverse) && "" !in used
    ensures Stream.Sound(StreamTables(reverse, compatibility)) && Stream.Renames(StreamTables(reverse, compatibility))
  {
    var t := StreamTables(reverse, compatibility);
    forall a | a in t.names ensures a != "" && a !in t.blocked && t.names[a] != a {
      assert reverse[a] in forward && Names.PREFIX <= a;
      Names.AliasesAreNotBlocked(used, anonymous, compatibility, digest, forward, reverse, a);
    }
    forall a, b | a in t.names && b in t.names && a <= b ensures a == b {
      assert reverse[a] in forward && reverse[b] in forward;
      if reverse[a] != reverse[b] {
        Names.AliasesPrefixFree(reverse[a], reverse[b], used, digest);
      }
    }
    assert "" !in Names.CORE by { assert |"shell"| == 5 && |"read"| == 4; }
    forall a | a in reverse ensures reverse[a] != "" {
      assert reverse[a] in forward;
    }
  }

  /** A client tool that kept its name passes untouched through the response to the
      very request that declared it. */
  lemma PlainToolsPass(used: set<Name>, anonymous: bool, compatibility: bool, digest: Names.Digest,
                       forward: map<Name, Name>, reverse: map<Name, Name>, name: Name, arguments: Stream.Arguments)
    requires Names.Tables(used, anonymous, compatibility, digest, forward, reverse) && "" !in used
    requires name in used && name !in forward
    ensures var t := StreamTables(reverse, compatibility); var fn := Stream.Fn(name, arguments);
            Stream.Feed(t, Stream.None, [fn]) == Stream.Fine([fn], Stream.None) && Stream.Restored(t, [fn]) == [fn]
  {
    var t := StreamTables(reverse, compatibility);
    LoweredTablesAreSound(used, anonymous, compatibility, digest, forward, reverse);
    if Stream.Holds(t, name) {
      var other :| (other in t.names || other in t.blocked) && name <= other;
      Names.PlainNamesAreNeverHeld(used, anonymous, compatibility, digest, forward, reverse, name, other);
    }
    assert [Stream.Fn(name, arguments)][1..] == [];
    Stream.WholePlainName(t, [Stream.Fn(name, arguments)]);
  }

  /** The stream delivers the client's name with exactly these arguments. */
  predicate ComesBack(t: Stream.Tables, fns: seq<Stream.Fn>, name: Name) {
    var r := Stream.Feed(t, Stream.None, fns);
    && r.Fine? && r.held == Stream.None
    && Stream.Names(Stream.Restored(t, r.out)) == name
    && Stream.Texts(Stream.Restored(t, r.out)) == Stream.Texts(fns)
  }

  /** Some client name that was itself replaced is the start of the alias. */
  predicate StartTaken(forward: map<Name, Name>, alias: Name) { exists n :: n in forward && n <= alias }

  /** No cut of an alias hits a refused name unless a replaced client name starts it. */
  lemma StartsAreFree(used: set<Name>, anonymous: bool, compatibility: bool, digest: Names.Digest,
                      forward: map<Name, Name>, reverse: map<Name, Name>, name: Name, start: Name)
    requires Names.Tables(used, anonymous, compatibility, digest, forward, reverse) && "" !in used
    requires name in forward && start <= forward[name]
    ensures start in StreamTables(reverse, compatibility).blocked <==> start in forward
  {
    var t := StreamTables(reverse, compatibility);
    assert Names.PREFIX <= forward[name];
    if start in t.blocked {
      assert |start| > 0 by {
        LoweredTablesAreSound(used, anonymous, compatibility, digest, forward, reverse);
      }
      assert start[0] == 'w';
      assert start !in Names.CORE by { assert "shell"[0] == 's' && "read"[0] == 'r'; }
      var a :| a in reverse && reverse[a] == start;
    }
    if start in forward {
      assert forward[start] in reverse && reverse[forward[start]] == start;
    }
  }

  /** Every fragmentation of an alias comes back under the client's name, whatever
      its cuts and arguments, if and only if no replaced client name is the start of
      that alias. */
  lemma AliasedToolsComeBack(used: set<Name>, anonymous: bool, compatibility: bool, digest: Names.Digest,
                             forward: map<Name, Name>, reverse: map<Name, Name>, name: Name)
    requires Names.Tables(used, anonymous, compatibility, digest, forward, reverse) && "" !in used
    requires name in forward
    ensures var t := StreamTables(reverse, compatibility);
      (forall fns {:trigger Stream.Names(fns)} ::
         Stream.Textual(fns) && Stream.Names(fns) == forward[name] ==> ComesBack(t, fns, name))
      <==> !StartTaken(forward, forward[name])
  {
    var t := StreamTables(reverse, compatibility);
    var alias := forward[name];
    LoweredTablesAreSound(used, anonymous, compatibility, digest, forward, reverse);
    if StartTaken(forward, alias) {
      var n :| n in forward && n <= alias;
      StartsAreFree(used, anonymous, compatibility, digest, forward, reverse, name, n);
      CutFails(t, alias, n);
    } else {
      forall fns | Stream.Textual(fns) && Stream.Names(fns) == alias ensures ComesBack(t, fns, name) {
        forall k | 0 <= k <= |fns| ensures Stream.Names(fns[..k]) !in t.blocked {
          Stream.NamesPrefix(fns, k);
          StartsAreFree(used, anonymous, compatibility, digest, forward, reverse, name, Stream.Names(fns[..k]));
        }
        Stream.FragmentsOfAnAlias(t, fns, alias);
      }
    }
  }

  lemma CutFails(t: Stream.Tables, alias: Name, start: Name)
    requires Stream.Sound(t) && alias in t.names && start in t.blocked && start <= alias
    ensures exists fns {:trigger Stream.Names(fns)} ::
              Stream.Textual(fns) && Stream.Names(fns) == alias && Stream.Feed(t, Stream.None, fns).Broken?
  {
    var rest := alias[|start|..];
    var fns := [Stream.Fn(start, Stream.Absent), Stream.Fn(rest, Stream.Absent)];
    assert fns[1..] == [Stream.Fn(rest, Stream.Absent)] && fns[1..][1..] == [];
    assert rest + "" == rest && start + rest == alias;
    assert Stream.Names(fns[1..]) == rest + Stream.Names(fns[1..][1..]);
    assert Stream.Names(fns) == alias;
    assert fns[..1] == [Stream.Fn(start, Stream.Absent)] && fns[..1][1..] == [] && start + "" == start;
    assert Stream.Names(fns[..1]) == start;
    Stream.FragmentsOfAnAlias(t, fns, alias);
  }

  /** An instance: an anonymous request with a tool
      called "w2a_" fails when any alias is cut after its fourth character. */
  lemma ToolNamedLikeThePrefixBreaks(used: set<Name>, compatibility: bool, digest: Names.Digest,
                                     forward: map<Name, Name>, reverse: map<Name, Name>, name: Name)
    requires Names.Tables(used, true, compatibility, digest, forward, reverse)
    requires Names.PREFIX in used && "" !in used && name in used
    ensures name in forward
    ensures var t := StreamTables(reverse, compatibility);
            var alias := forward[name];
            |alias| > 4 && Stream.Feed(t, Stream.None,
                [Stream.Fn(alias[..4], Stream.Absent), Stream.Fn(alias[4..], Stream.Absent)])
                           == Stream.Broken
  {
    assert Names.Aliased(name, used, true, compatibility) && Names.Aliased(Names.PREFIX, used, true, compatibility);
    var t := StreamTables(reverse, compatibility);
    var alias := forward[name];
    assert Names.PREFIX + digest(name) <= alias;
    assert alias[..4] == Names.PREFIX;
    assert forward[Names.PREFIX] in reverse && reverse[forward[Names.PREFIX]] == Names.PREFIX;
    assert Names.PREFIX in t.blocked;
    var fns := [Stream.Fn(alias[..4], Stream.Absent), Stream.Fn(alias[4..], Stream.Absent)];
    assert "" + fns[0].name == Names.PREFIX;
    assert Stream.Rewrite(t, Stream.None, fns[0]) == Stream.Failed;
  }

  /** An official name the client uses itself, and every client name that starts one, is
      hidden; with the compatibility tools in play, so is every name that starts one of
      them. */
  lemma StartsOfOfficialNamesAreHidden(used: set<Name>, anonymous: bool, compatibility: bool, digest: Names.Digest,
                                       forward: map<Name, Name>, reverse: map<Name, Name>, name: Name, official: Name)
    requires Names.Tables(used, anonymous, compatibility, digest, forward, reverse)
    requires name in used && name <= official
    requires (official in used && official in Names.OFFICIAL)
             || (compatibility && (official == "shell" || official == "read"))
    ensures name in forward
  {
    assert official in Names.Reserved(used, compatibility);
    assert Names.Aliased(name, used, anonymous, compatibility);
  }

  /** The upstream may not select a tool by a name the client's own tool was hidden
      under, nor one of the compatibility tools: such a name, arriving whole, fails the
      response; any other name that starts none of them passes. */
  lemma HiddenNamesAreRefused(used: set<Name>, anonymous: bool, compatibility: bool, digest: Names.Digest,
                              forward: map<Name, Name>, reverse: map<Name, Name>, name: Name,
                              arguments: Stream.Arguments)
    requires Names.Tables(used, anonymous, compatibility, digest, forward, reverse) && "" !in used && name != ""
    requires !arguments.Other?
    ensures Stream.Feed(StreamTables(reverse, compatibility), Stream.None, [Stream.Fn(name, arguments)]).Broken?
       <==> name in forward || (compatibility && (name == "shell" || name == "read"))
  {
    var t := StreamTables(reverse, compatibility);
    var fns := [Stream.Fn(name, arguments)];
    LoweredTablesAreSound(used, anonymous, compatibility, digest, forward, reverse);
    assert fns[1..] == [] && "" + name == name;
    assert name in t.blocked <==> name in forward || (compatibility && name in Names.CORE) by {
      forall n | n in forward ensures n in reverse.Values { assert reverse[forward[n]] == n; }
      forall n | n in reverse.Values ensures n in forward {
        var a :| a in reverse && reverse[a] == n;
      }
    }
  }
}
