/**
 Who may write a ref: the lock a running run holds over its grant's prefix (`internal/agents/lock.go`,
 `RunBranch` of `grpc.go`) and the grant itself (`CanWriteRef` of `internal/capability/grant.go`).
 */
module BranchLocks {
  import opened Wrappers
  import opened Text
  import opened Runs
  import opened RunProtocol
  import RunSafety

  const HEADS: string := "refs/heads/"
  const NAMESPACE: string := "agents/"
  const LEAF: string := "work"

  /** The branch a run works on beneath its grant's prefix. */
  function RunBranch(writeBranch: string): string {
    if writeBranch == "" then "" else if HasSuffix(writeBranch, "/") then writeBranch + LEAF else writeBranch
  }

  function LockPrefix(branch: string): string {
    if HasSuffix(branch, "/" + LEAF) then branch[..|branch| - |LEAF|] else branch + "/"
  }

  /** The lock of a run on branch `held` covers the ref. */
  predicate Covers(held: string, ref: string) {
    var branch := TrimPrefix(ref, HEADS);
    held != "" && (branch == held || HasPrefix(branch, LockPrefix(held)))
  }

  predicate CanWriteRef(writeBranch: string, ref: string) {
    !Contains(ref, "..") && writeBranch != "" && HasPrefix(TrimPrefix(ref, HEADS), writeBranch)
  }

  datatype Holding = Holding(run: nat, agent: nat, branch: string)

  /** The scan over the running runs of the repository: the first that covers the ref. */
  method Check(running: seq<Holding>, ref: string) returns (holder: Option<Holding>)
    ensures holder.Some? <==> exists i :: 0 <= i < |running| && Covers(running[i].branch, ref)
    ensures holder.Some? ==> holder.value in running && Covers(holder.value.branch, ref)
  {
    for i := 0 to |running|
      invariant forall k :: 0 <= k < i ==> !Covers(running[k].branch, ref)
    {
      if running[i].branch != "" && Covers(running[i].branch, ref) { return Some(running[i]); }
    }
    return None;
  }

  // ----- what a lock covers -----

  /** The branch lies beneath this directory. */
  predicate Beneath(branch: string, directory: string) {
    |branch| > |directory| && branch[..|directory|] == directory && branch[|directory|] == '/'
  }

  /**
   A lock covers its own branch and all beneath it; a run's own branch, which ends in "/work", covers
   all beneath its prefix instead.
   */
  lemma CoversExactly(held: string, branch: string)
    requires held != "" && !HasPrefix(branch, HEADS)
    ensures Covers(held, HEADS + branch) == Covers(held, branch)
    ensures Covers(held, branch) <==>
            branch == held || (if HasSuffix(held, "/work") then Beneath(branch, held[..|held| - 5]) else Beneath(branch, held))
  {
    TrimHeads(branch);
    var directory := if HasSuffix(held, "/work") then held[..|held| - 5] else held;
    assert LockPrefix(held) == directory + "/" by {
      if HasSuffix(held, "/work") { assert held == held[..|held| - 5] + held[|held| - 5..]; }
    }
    BeneathIs(branch, directory);
  }

  lemma BeneathIs(branch: string, directory: string)
    ensures Beneath(branch, directory) <==> HasPrefix(branch, directory + "/")
  {
    var prefix := directory + "/";
    if |branch| > |directory| { assert branch[..|prefix|] == branch[..|directory|] + [branch[|directory|]]; }
  }

  // ----- one ref, one run -----

  predicate SlashFree(key: string) { '/' !in key }

  /** The grant prefix of a Work Item's key. */
  function KeyPrefix(key: string): string { NAMESPACE + key + "/" }

  lemma PrefixBranch(key: string)
    ensures RunBranch(KeyPrefix(key)) == KeyPrefix(key) + LEAF
    ensures LockPrefix(RunBranch(KeyPrefix(key))) == KeyPrefix(key)
  {
    var p := KeyPrefix(key);
    assert p[|p| - 1..] == "/";
    assert HasSuffix(p, "/");
    LeafPrefix(p);
  }

  /** A branch made of a prefix with a slash is locked by exactly that prefix. */
  lemma LeafPrefix(prefix: string)
    requires HasSuffix(prefix, "/")
    ensures LockPrefix(prefix + LEAF) == prefix
  {
    var b := prefix + LEAF;
    assert prefix == prefix[..|prefix| - 1] + "/";
    assert b[|b| - 5..] == "/" + LEAF;
    assert b[..|b| - |LEAF|] == prefix;
  }

  lemma CoversPrefix(key: string, ref: string)
    ensures Covers(RunBranch(KeyPrefix(key)), ref) <==> HasPrefix(TrimPrefix(ref, HEADS), KeyPrefix(key))
  {
    PrefixBranch(key);
  }

  /** Two slash-free keys never share a ref. */
  lemma OneKey(a: string, b: string, branch: string)
    requires SlashFree(a) && SlashFree(b) && HasPrefix(branch, KeyPrefix(a)) && HasPrefix(branch, KeyPrefix(b))
    ensures a == b
  {
    var n := |NAMESPACE|;
    assert forall i :: 0 <= i < |a| ==> branch[n + i] == KeyPrefix(a)[n + i] == a[i] && a[i] in a;
    assert forall i :: 0 <= i < |b| ==> branch[n + i] == KeyPrefix(b)[n + i] == b[i] && b[i] in b;
    assert branch[n + |a|] == KeyPrefix(a)[n + |a|] == '/';
    assert branch[n + |b|] == KeyPrefix(b)[n + |b|] == '/';
    assert |a| == |b|;
  }

  /** With slash-free keys, at most one running run of a repository covers any ref, in every reachable state. */
  lemma OneRunPerRef(steps: seq<Step>, p: nat, q: nat, a: string, b: string, ref: string)
    requires p in Exec(steps).runs && q in Exec(steps).runs && SlashFree(a) && SlashFree(b)
    requires Exec(steps).runs[p].state == Running && Exec(steps).runs[q].state == Running
    requires Exec(steps).runs[p].org == Exec(steps).runs[q].org && Exec(steps).runs[p].repo == Exec(steps).runs[q].repo
    requires Exec(steps).runs[p].branch == RunBranch(KeyPrefix(a)) && Exec(steps).runs[q].branch == RunBranch(KeyPrefix(b))
    requires Covers(Exec(steps).runs[p].branch, ref) && Covers(Exec(steps).runs[q].branch, ref)
    ensures p == q
  {
    hide Exec, Covers, RunBranch, KeyPrefix, HasPrefix, TrimPrefix;
    CoversPrefix(a, ref);
    CoversPrefix(b, ref);
    OneKey(a, b, TrimPrefix(ref, HEADS));
    RunSafety.OneHolder(steps, p, q);
  }

  // ----- the lock and the grant agree -----

  /** The grant permits exactly the refs that its run's lock covers, apart from those with "..". */
  ghost predicate Agree(writeBranch: string) {
    forall ref :: CanWriteRef(writeBranch, ref) <==> Covers(RunBranch(writeBranch), ref) && !Contains(ref, "..")
  }

  lemma SlashAgrees(writeBranch: string)
    requires HasSuffix(writeBranch, "/")
    ensures Agree(writeBranch)
  {
    LeafPrefix(writeBranch);
  }

  /** Text between a heading and a letter has ".." only if it has it itself. */
  lemma NoDots(s: string, last: char)
    requires !Contains(s, "..") && last != '.'
    ensures !Contains(HEADS + s + [last], "..")
  {
    var t := HEADS + s + [last];
    forall i | 0 <= i <= |t| - 2 ensures !PartAt(t, "..", i) {
      if PartAt(t, "..", i) { DotsInside(s, last, i); }
    }
  }

  lemma DotsInside(s: string, last: char, i: nat)
    requires last != '.' && PartAt(HEADS + s + [last], "..", i)
    ensures Contains(s, "..")
  {
    var t := HEADS + s + [last];
    assert t[i] == t[i..i + 2][0] == '.' && t[i + 1] == t[i..i + 2][1] == '.';
    var n := |HEADS|;
    assert forall k :: 0 <= k < n ==> t[k] == HEADS[k] != '.';
    assert t[|t| - 1] == last;
    var j := i - n;
    assert s[j..j + 2] == t[i..i + 2];
    assert PartAt(s, "..", j);
  }

  lemma TrimHeads(s: string)
    ensures TrimPrefix(HEADS + s, HEADS) == s
  {
  }

  /** A prefix without its slash permits a neighbour that the lock does not cover. */
  lemma BareDisagrees(writeBranch: string)
    requires writeBranch != "" && !HasSuffix(writeBranch, "/") && !Contains(writeBranch, "..") && !HasSuffix(writeBranch, "/" + LEAF)
    ensures !Agree(writeBranch)
  {
    var ref := HEADS + writeBranch + "x";
    NoDots(writeBranch, 'x');
    TrimHeads(writeBranch + "x");
    assert ref == HEADS + (writeBranch + "x");
    assert (writeBranch + "x")[|writeBranch|] == 'x' && (writeBranch + "/")[|writeBranch|] == '/';
    assert CanWriteRef(writeBranch, ref) && !Covers(RunBranch(writeBranch), ref);
  }

  /** A prefix that ends like a run's own branch locks its neighbours, which the grant does not permit. */
  lemma LeafDisagrees(writeBranch: string)
    requires !Contains(writeBranch, "..") && HasSuffix(writeBranch, "/" + LEAF)
    ensures !Agree(writeBranch)
  {
    var prefix := writeBranch[..|writeBranch| - |LEAF|];
    var ref := HEADS + prefix + "x";
    assert writeBranch[|writeBranch| - 1] == 'k';
    assert !Contains(prefix, "..") by {
      if Contains(prefix, "..") {
        var i :| 0 <= i <= |prefix| - 2 && PartAt(prefix, "..", i);
        assert writeBranch[i..i + 2] == prefix[i..i + 2];
        assert PartAt(writeBranch, "..", i);
      }
    }
    NoDots(prefix, 'x');
    TrimHeads(prefix + "x");
    assert ref == HEADS + (prefix + "x");
    assert writeBranch[|prefix|] == writeBranch[|writeBranch| - 5..][1] == 'w' && (prefix + "x")[|prefix|] == 'x';
    assert !CanWriteRef(writeBranch, ref) && Covers(RunBranch(writeBranch), ref);
  }

  lemma DotsGoOn(s: string, part: string, from: nat, to: nat)
    requires from <= to <= |s| && part == s[from..to] && Contains(part, "..")
    ensures Contains(s, "..")
  {
    var i :| 0 <= i <= |part| - 2 && PartAt(part, "..", i);
    assert part[i..i + 2] == s[from..to][i..i + 2] && s[from..to][i] == s[from + i] && s[from..to][i + 1] == s[from + i + 1];
    assert s[from + i..from + i + 2] == part[i..i + 2];
    assert PartAt(s, "..", from + i);
  }

  /** Every ref that starts with the prefix, and every covered one, has its "..": nothing is permitted on either side. */
  lemma DotsAgree(writeBranch: string)
    requires Contains(writeBranch, "..") && !HasSuffix(writeBranch, "/") && writeBranch != ""
    ensures Agree(writeBranch)
  {
    var locked := LockPrefix(writeBranch);
    assert Contains(locked, "..") by {
      if HasSuffix(writeBranch, "/" + LEAF) {
        var i :| 0 <= i <= |writeBranch| - 2 && PartAt(writeBranch, "..", i);
        assert writeBranch[i] == writeBranch[i..i + 2][0] == '.' && writeBranch[i + 1] == writeBranch[i..i + 2][1] == '.';
        var n := |writeBranch| - 5;
        assert forall k :: n <= k < |writeBranch| ==> writeBranch[k] == writeBranch[n..][k - n] != '.';
        assert locked[i..i + 2] == writeBranch[i..i + 2];
        assert PartAt(locked, "..", i);
      } else {
        DotsGoOn(locked, writeBranch, 0, |writeBranch|);
      }
    }
    forall ref ensures CanWriteRef(writeBranch, ref) <==> Covers(RunBranch(writeBranch), ref) && !Contains(ref, "..") {
      var branch := TrimPrefix(ref, HEADS);
      var from := |ref| - |branch|;
      if HasPrefix(branch, writeBranch) { DotsGoOn(ref, writeBranch, from, from + |writeBranch|); }
      if HasPrefix(branch, locked) { DotsGoOn(ref, locked, from, from + |locked|); }
    }
  }

  /**
   The lock and the grant agree on every ref exactly when the prefix ends in a slash, or permits
   nothing at all because it is empty or has "..".
   */
  lemma AgreeIffSlash(writeBranch: string)
    ensures Agree(writeBranch) <==> writeBranch == "" || Contains(writeBranch, "..") || HasSuffix(writeBranch, "/")
  {
    if writeBranch == "" {
    } else if HasSuffix(writeBranch, "/") {
      SlashAgrees(writeBranch);
    } else if Contains(writeBranch, "..") {
      DotsAgree(writeBranch);
    } else if HasSuffix(writeBranch, "/" + LEAF) {
      LeafDisagrees(writeBranch);
    } else {
      BareDisagrees(writeBranch);
    }
  }
}
