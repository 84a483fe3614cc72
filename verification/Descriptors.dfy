/** Transitive import resolution over gRPC server reflection
    (internal/egress/grpc/descriptor.go, fetchDependencies). */
module Descriptors {
  import opened Basics

  datatype File = File(name: string, imports: seq<string>)

  /** One step of the reflection stream: a file descriptor response, possibly followed by
      bytes that do not parse, or anything that ends the resolution with an error. */
  datatype Reply = Files(files: seq<File>, thenUnreadable: bool) | Failed

  function Names(files: seq<File>): set<string> {
    set i | 0 <= i < |files| :: files[i].name
  }

  predicate Imports(files: seq<File>, name: string) {
    exists i :: 0 <= i < |files| && name in files[i].imports
  }

  /** Every import of every file names a file of the set. */
  ghost predicate ImportClosed(files: seq<File>) {
    forall name :: Imports(files, name) ==> name in Names(files)
  }

  /** The files from index n on have names that occur nowhere before them. */
  predicate FreshFrom(files: seq<File>, n: nat) {
    forall i :: n <= i < |files| ==> files[i].name !in Names(files[..i])
  }

  /** Every reply so far contains the file that was asked for. */
  predicate Honest(asked: seq<string>, replies: seq<Reply>) {
    forall i :: 0 <= i < |asked| && i < |replies| && replies[i].Files? ==> asked[i] in Names(replies[i].files)
  }

  /** Imports stay within the set `scope`, and so do the replies to requests for its names. */
  predicate InScope(files: seq<File>, scope: set<string>) {
    forall i :: 0 <= i < |files| ==> files[i].name in scope && Within(files[i].imports, scope)
  }

  predicate RepliesInScope(asked: seq<string>, replies: seq<Reply>, scope: set<string>) {
    forall i :: 0 <= i < |asked| && i < |replies| && replies[i].Files? && asked[i] in scope ==>
      InScope(replies[i].files, scope)
  }

  /** One of the first `used` replies contained the file. */
  predicate Sent(f: File, replies: seq<Reply>, used: nat) {
    exists r :: 0 <= r < used && r < |replies| && replies[r].Files? && f in replies[r].files
  }

  /** Every file from index n on is as some reply sent it. */
  predicate AddedAsSent(files: seq<File>, n: nat, replies: seq<Reply>, used: nat) {
    forall i :: n <= i < |files| ==> Sent(files[i], replies, used)
  }

  /** Replies from one index up to another were all answered and readable. */
  predicate AllReadable(replies: seq<Reply>, from: nat, to: nat) {
    to <= |replies| && forall i :: from <= i < to ==> replies[i].Files? && !replies[i].thenUnreadable
  }

  /** The names that replies from one index up to another brought are known. */
  predicate AllKnown(replies: seq<Reply>, from: nat, to: nat, known: set<string>) {
    to <= |replies| && forall i :: from <= i < to && replies[i].Files? ==> Names(replies[i].files) <= known
  }

  predicate Within(names: seq<string>, scope: set<string>) {
    forall k :: 0 <= k < |names| ==> names[k] in scope
  }

  /** After n replies the stream ended or failed, or the last of them was unreadable. */
  predicate StreamFailed(n: nat, replies: seq<Reply>) {
    || n == |replies|
    || (n < |replies| && replies[n].Failed?)
    || (0 < n <= |replies| && replies[n - 1].Files? && replies[n - 1].thenUnreadable)
  }

  lemma EarlierRepliesToo(asked: seq<string>, asked': seq<string>, replies: seq<Reply>, scope: set<string>)
    requires asked <= asked'
    ensures RepliesInScope(asked', replies, scope) ==> RepliesInScope(asked, replies, scope)
    ensures Honest(asked', replies) ==> Honest(asked, replies)
  {
  }

  lemma ImportsInScope(files: seq<File>, names: seq<string>, scope: set<string>)
    requires InScope(files, scope) && forall k :: 0 <= k < |names| ==> Imports(files, names[k])
    ensures Within(names, scope)
  {
  }

  lemma NamesAppend(files: seq<File>, f: File)
    ensures Names(files + [f]) == Names(files) + {f.name}
  {
    assert forall i :: 0 <= i < |files| ==> (files + [f])[i] == files[i];
    assert (files + [f])[|files|] == f;
  }

  // ---- What the replies add up to ---------------------------------------------

  /** The files of one reply appended in order, but for names that are there already. */
  function Added(files: seq<File>, reply: seq<File>): seq<File> {
    if reply == [] then files
    else
      var sofar := Added(files, Front(reply));
      if Last(reply).name in Names(sofar) then sofar else sofar + [Last(reply)]
  }

  /** The same for the replies from index lo up to hi. */
  function AddedAll(files: seq<File>, replies: seq<Reply>, lo: nat, hi: nat): seq<File>
    requires lo <= hi <= |replies|
    decreases hi
  {
    if lo == hi then files
    else if replies[hi - 1].Failed? then AddedAll(files, replies, lo, hi - 1)
    else Added(AddedAll(files, replies, lo, hi - 1), replies[hi - 1].files)
  }

  lemma {:induction false} AddedNames(files: seq<File>, reply: seq<File>)
    ensures Names(Added(files, reply)) == Names(files) + Names(reply)
  {
    if reply != [] {
      AddedNames(files, Front(reply));
      assert reply == Front(reply) + [Last(reply)];
      NamesAppend(Front(reply), Last(reply));
      NamesAppend(Added(files, Front(reply)), Last(reply));
    }
  }

  lemma {:induction false} AddedIsFresh(files: seq<File>, reply: seq<File>, n: nat)
    requires n <= |files| && FreshFrom(files, n)
    ensures files <= Added(files, reply) && FreshFrom(Added(files, reply), n)
  {
    if reply != [] {
      AddedIsFresh(files, Front(reply), n);
      var sofar := Added(files, Front(reply));
      var f := Last(reply);
      assert forall k :: 0 <= k < |sofar| ==> (sofar + [f])[..k] == sofar[..k];
      assert (sofar + [f])[..|sofar|] == sofar;
    }
  }

  lemma {:induction false} AddedAsInReply(files: seq<File>, reply: seq<File>)
    ensures |files| <= |Added(files, reply)|
    ensures forall k :: |files| <= k < |Added(files, reply)| ==> Added(files, reply)[k] in reply
  {
    if reply != [] {
      AddedAsInReply(files, Front(reply));
    }
  }

  lemma {:induction false} AddedInScope(files: seq<File>, reply: seq<File>, scope: set<string>)
    requires InScope(files, scope) && InScope(reply, scope)
    ensures InScope(Added(files, reply), scope)
  {
    if reply != [] {
      AddedInScope(files, Front(reply), scope);
    }
  }

  /** The initial files stay a prefix, and no name is added twice or again. */
  lemma {:induction false} AllAddedIsFresh(files: seq<File>, replies: seq<Reply>, lo: nat, hi: nat, n: nat)
    requires lo <= hi <= |replies| && n <= |files| && FreshFrom(files, n)
    ensures files <= AddedAll(files, replies, lo, hi) && FreshFrom(AddedAll(files, replies, lo, hi), n)
    decreases hi
  {
    if lo < hi {
      AllAddedIsFresh(files, replies, lo, hi - 1, n);
      if replies[hi - 1].Files? {
        AddedIsFresh(AddedAll(files, replies, lo, hi - 1), replies[hi - 1].files, n);
      }
    }
  }

  /** Nothing is lost: every name a reply brought is there. */
  lemma {:induction false} AllAddedKnown(files: seq<File>, replies: seq<Reply>, lo: nat, hi: nat)
    requires lo <= hi <= |replies|
    ensures Names(files) <= Names(AddedAll(files, replies, lo, hi))
    ensures AllKnown(replies, lo, hi, Names(AddedAll(files, replies, lo, hi)))
    decreases hi
  {
    if lo < hi {
      AllAddedKnown(files, replies, lo, hi - 1);
      if replies[hi - 1].Files? {
        AddedNames(AddedAll(files, replies, lo, hi - 1), replies[hi - 1].files);
      }
    }
  }

  /** Nothing is made up: every added file is as a reply sent it. */
  lemma {:induction false} AllAddedAsSent(files: seq<File>, replies: seq<Reply>, lo: nat, hi: nat)
    requires lo <= hi <= |replies|
    ensures AddedAsSent(AddedAll(files, replies, lo, hi), |files|, replies, hi)
    decreases hi
  {
    if lo < hi {
      var sofar := AddedAll(files, replies, lo, hi - 1);
      var all := AddedAll(files, replies, lo, hi);
      AllAddedAsSent(files, replies, lo, hi - 1);
      if replies[hi - 1].Files? {
        AddedAsInReply(sofar, replies[hi - 1].files);
        AddedIsFresh(sofar, replies[hi - 1].files, |sofar|);
      }
      forall i | |files| <= i < |all|
        ensures Sent(all[i], replies, hi)
      {
        assert i < |sofar| ==> Sent(sofar[i], replies, hi - 1);
      }
    }
  }

  /** Replies to requests within a scope keep the files within it. */
  lemma {:induction false} AllAddedInScope(
    files: seq<File>, replies: seq<Reply>, asked: seq<string>, lo: nat, hi: nat, scope: set<string>)
    requires lo <= hi <= |asked| && hi <= |replies| && InScope(files, scope)
    requires RepliesInScope(asked, replies, scope) && forall k :: lo <= k < hi ==> asked[k] in scope
    ensures InScope(AddedAll(files, replies, lo, hi), scope)
    decreases hi
  {
    if lo < hi {
      AllAddedInScope(files, replies, asked, lo, hi - 1, scope);
      if replies[hi - 1].Files? {
        AddedInScope(AddedAll(files, replies, lo, hi - 1), replies[hi - 1].files, scope);
      }
    }
  }

  lemma AddedFacts(files: seq<File>, replies: seq<Reply>, hi: nat)
    requires hi <= |replies|
    ensures var all := AddedAll(files, replies, 0, hi);
      && files <= all && FreshFrom(all, |files|)
      && AddedAsSent(all, |files|, replies, hi) && AllKnown(replies, 0, hi, Names(all))
  {
    AllAddedIsFresh(files, replies, 0, hi, |files|);
    AllAddedAsSent(files, replies, 0, hi);
    AllAddedKnown(files, replies, 0, hi);
  }

  /** A reply of new files is appended as it is. */
  lemma {:induction false} NewFilesAreAppended(files: seq<File>, reply: seq<File>)
    requires FreshFrom(files + reply, |files|)
    ensures Added(files, reply) == files + reply
  {
    if reply == [] {
      assert files + reply == files;
    } else {
      var all := files + reply;
      assert all[..|all| - 1] == files + Front(reply);
      assert forall i :: |files| <= i < |all| - 1 ==> (files + Front(reply))[..i] == all[..i];
      NewFilesAreAppended(files, Front(reply));
      assert all[|all| - 1] == Last(reply);
      assert files + Front(reply) + [Last(reply)] == all;
    }
  }

  lemma {:induction false} AddedAllTwice(files: seq<File>, replies: seq<Reply>, lo: nat, mid: nat, hi: nat)
    requires lo <= mid <= hi <= |replies|
    ensures AddedAll(AddedAll(files, replies, lo, mid), replies, mid, hi) == AddedAll(files, replies, lo, hi)
    decreases hi
  {
    if mid < hi {
      AddedAllTwice(files, replies, lo, mid, hi - 1);
    }
  }

  /** The FileDescriptorSet that is completed in place. */
  class FileSet {
    var files: seq<File>

    constructor (initial: seq<File>)
      ensures files == initial
    {
      files := initial;
    }

    /** All imports that are not known, with repetitions. */
    method CollectMissing(known: set<string>) returns (missing: seq<string>)
      ensures forall name :: name in missing <==> Imports(files, name) && name !in known
    {
      missing := [];
      var i := 0;
      while i < |files|
        invariant 0 <= i <= |files|
        invariant forall name :: name in missing <==> Imports(files[..i], name) && name !in known
      {
        ghost var before := missing;
        var j := 0;
        while j < |files[i].imports|
          invariant 0 <= j <= |files[i].imports|
          invariant forall name ::
            name in missing <==> name in before || (name in files[i].imports[..j] && name !in known)
        {
          var dep := files[i].imports[j];
          assert files[i].imports[..j + 1] == files[i].imports[..j] + [dep];
          if dep !in known {
            missing := missing + [dep];
          }
          j := j + 1;
        }
        assert files[i].imports[..j] == files[i].imports;
        assert files[..i + 1] == files[..i] + [files[i]];
        assert forall name :: Imports(files[..i + 1], name) <==> Imports(files[..i], name) || name in files[i].imports;
        i := i + 1;
      }
      assert files[..i] == files;
    }

    /** Adds the files of one reply whose names are new. */
    method Absorb(reply: seq<File>, known: set<string>) returns (known': set<string>)
      requires known == Names(files)
      modifies this
      ensures files == Added(old(files), reply) && known' == Names(files)
    {
      known' := known;
      for i := 0 to |reply|
        invariant files == Added(old(files), reply[..i]) && known' == Names(files)
      {
        var f := reply[i];
        assert Front(reply[..i + 1]) == reply[..i] && Last(reply[..i + 1]) == f;
        if f.name !in known' {
          NamesAppend(files, f);
          files := files + [f];
          known' := known' + {f.name};
        }
      }
      assert reply[..|reply|] == reply;
    }

    /** Asks for the missing names one after the other, as far as the stream goes; `sent` of
        them were answered. */
    method AskAll(missing: seq<string>, replies: seq<Reply>, used: nat, known: set<string>)
      returns (ok: bool, known': set<string>, ghost sent: nat)
      requires known == Names(files) && used <= |replies|
      modifies this
      ensures sent <= |missing| && used + sent <= |replies| && (ok ==> sent == |missing|)
      ensures files == AddedAll(old(files), replies, used, used + sent) && known' == Names(files)
      ensures if ok then AllReadable(replies, used, used + sent) else StreamFailed(used + sent, replies)
    {
      known', sent := known, 0;
      for i := 0 to |missing|
        invariant sent == i && used + i <= |replies|
        invariant files == AddedAll(old(files), replies, used, used + i) && known' == Names(files)
        invariant AllReadable(replies, used, used + i)
      {
        if used + i == |replies| || replies[used + i].Failed? {
          return false, known', sent;
        }
        known' := Absorb(replies[used + i].files, known');
        sent := sent + 1;
        if replies[used + i].thenUnreadable {
          return false, known', sent;
        }
      }
      ok := true;
    }

    /** Completes the set and hands it on: what Resolve does, said of the files. The initial
        ones stay a prefix, the others are as the server sent them, no name already present is
        added and none that it sent is missing. */
    method FetchDependencies(replies: seq<Reply>, ghost scope: set<string>)
      returns (ok: bool, ghost asked: seq<string>, ghost rounds: nat)
      modifies this
      ensures |asked| <= |replies| && files == AddedAll(old(files), replies, 0, |asked|)
      ensures old(files) <= files && FreshFrom(files, |old(files)|)
      ensures AddedAsSent(files, |old(files)|, replies, |asked|) && AllKnown(replies, 0, |asked|, Names(files))
      ensures if ok then ImportClosed(files) && AllReadable(replies, 0, |asked|) else StreamFailed(|asked|, replies)
      ensures InScope(old(files), scope) && RepliesInScope(asked, replies, scope) ==> InScope(files, scope)
      ensures InScope(old(files), scope) && RepliesInScope(asked, replies, scope) && Honest(asked, replies) ==>
        rounds <= |scope - Names(old(files))| + (if ok then 0 else 1)
    {
      ok, asked, rounds := Resolve(replies, scope);
      AddedFacts(old(files), replies, |asked|);
    }

    /** Asks for every missing file, in rounds, until none is missing or the stream fails.
        `replies` is the behaviour of the stream from here on; it ends when they are used up.
        In every case the set is the initial one with the files of the replies used appended
        in order, each name once. On success it is closed under imports and every reply was
        readable. Names outside a scope that contains the initial files and the replies to
        its own names are never added; and a server whose replies contain the requested files
        is asked in at most one round more than the scope has names that were not there
        initially, however long it would go on. */
    method Resolve(replies: seq<Reply>, ghost scope: set<string>)
      returns (ok: bool, ghost asked: seq<string>, ghost rounds: nat)
      modifies this
      ensures |asked| <= |replies| && files == AddedAll(old(files), replies, 0, |asked|)
      ensures if ok then ImportClosed(files) && AllReadable(replies, 0, |asked|) else StreamFailed(|asked|, replies)
      ensures InScope(old(files), scope) && RepliesInScope(asked, replies, scope) ==> InScope(files, scope)
      ensures InScope(old(files), scope) && RepliesInScope(asked, replies, scope) && Honest(asked, replies) ==>
        rounds <= |scope - Names(old(files))| + (if ok then 0 else 1)
    {
      var known := Names(files);
      var used := 0;
      asked, rounds := [], 0;
      while true
        invariant used == |asked| <= |replies|
        invariant known == Names(files) && files == AddedAll(old(files), replies, 0, used)
        invariant AllReadable(replies, 0, used)
        invariant Tracked(old(files), files, asked, replies, scope, rounds)
        decreases |replies| - used
      {
        var missing := CollectMissing(known);
        if |missing| == 0 {
          return true, asked, rounds;
        }
        ghost var before := files;
        rounds := rounds + 1;
        var answered: bool;
        ghost var sent;
        answered, known, sent := AskAll(missing, replies, used, known);
        RoundKeepsTrack(old(files), before, replies, asked, missing, sent, scope, rounds - 1, answered);
        AddedAllTwice(old(files), replies, 0, used, used + sent);
        asked := asked + missing[..sent];
        if !answered {
          return false, asked, rounds;
        }
        used := used + |missing|;
      }
    }
  }

  /** The scope is kept, and with an honest server every round so far has made a name of it
      known. */
  predicate Tracked(
    initial: seq<File>, files: seq<File>, asked: seq<string>, replies: seq<Reply>, scope: set<string>, rounds: int)
  {
    InScope(initial, scope) && RepliesInScope(asked, replies, scope) ==>
      && InScope(files, scope)
      && (Honest(asked, replies) ==> rounds + |scope - Names(files)| <= |scope - Names(initial)|)
  }

  /** A round keeps the scope and loses no name; and if it was answered in full by an honest
      server one more name of the scope is known. */
  lemma RoundFacts(
    before: seq<File>, replies: seq<Reply>, asked: seq<string>, missing: seq<string>, sent: nat, scope: set<string>,
    answered: bool)
    requires sent <= |missing| && |asked| + sent <= |replies|
    requires answered ==> 0 < sent && replies[|asked|].Files?
    requires forall name :: name in missing <==> Imports(before, name) && name !in Names(before)
    requires InScope(before, scope)
    ensures var after := AddedAll(before, replies, |asked|, |asked| + sent);
      var asked' := asked + missing[..sent];
      && |scope - Names(after)| <= |scope - Names(before)|
      && (RepliesInScope(asked', replies, scope) ==> InScope(after, scope))
      && (Honest(asked', replies) && answered ==> |scope - Names(after)| < |scope - Names(before)|)
  {
    var lo, hi := |asked|, |asked| + sent;
    var after := AddedAll(before, replies, lo, hi);
    var asked' := asked + missing[..sent];
    assert forall k :: 0 <= k < |missing| ==> missing[k] in missing;
    ImportsInScope(before, missing, scope);
    assert forall k :: lo <= k < hi ==> asked'[k] == missing[k - lo];
    if RepliesInScope(asked', replies, scope) {
      AllAddedInScope(before, replies, asked', lo, hi, scope);
    }
    AllAddedKnown(before, replies, lo, hi);
    Shrinks(scope, Names(before), Names(after), if missing == [] then "" else missing[0]);
    if Honest(asked', replies) && answered {
      assert asked'[lo] == missing[0] && missing[0] in Names(replies[lo].files);
    }
  }

  lemma RoundKeepsTrack(
    initial: seq<File>, before: seq<File>, replies: seq<Reply>, asked: seq<string>, missing: seq<string>, sent: nat,
    scope: set<string>, rounds: int, answered: bool)
    requires sent <= |missing| && |asked| + sent <= |replies|
    requires answered ==> 0 < sent && replies[|asked|].Files?
    requires forall name :: name in missing <==> Imports(before, name) && name !in Names(before)
    requires Tracked(initial, before, asked, replies, scope, rounds)
    ensures var after := AddedAll(before, replies, |asked|, |asked| + sent);
      Tracked(initial, after, asked + missing[..sent], replies, scope, if answered then rounds + 1 else rounds)
  {
    EarlierRepliesToo(asked, asked + missing[..sent], replies, scope);
    if InScope(before, scope) {
      RoundFacts(before, replies, asked, missing, sent, scope, answered);
    }
  }

  lemma Shrinks(scope: set<string>, before: set<string>, after: set<string>, name: string)
    requires before <= after
    ensures |scope - after| <= |scope - before|
    ensures name in scope && name !in before && name in after ==> |scope - after| < |scope - before|
  {
    assert scope - before == (scope - after) + (scope * (after - before));
    if name in scope && name !in before && name in after {
      assert name in scope * (after - before);
    }
  }
}
