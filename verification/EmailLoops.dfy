/** The importer's own loops: the search filter and `process_inflight`, effect by effect. */
module EmailLoops {
  import opened Common
  import opened EmailWorker
  import opened EmailSafety

  // ---------------------------------------------------------------- search_uids

  /** A server's answer to `UID first:*`: everything from `first` on, and possibly the largest
      identifier even when it is smaller (section 6.4.8 of RFC 3501), in any order. */
  ghost predicate SearchAnswer(raw: seq<nat>, box: Mailbox, first: nat) {
    && (forall i, j | 0 <= i < j < |raw| :: raw[i] != raw[j])
    && (forall uid <- raw :: uid in box.messages)
    && (forall uid <- box.messages | first <= uid :: uid in raw)
  }

  function InsertUid(uids: seq<nat>, uid: nat): seq<nat> {
    if uids == [] || uid <= uids[0] then [uid] + uids else [uids[0]] + InsertUid(uids[1..], uid)
  }

  lemma {:induction false} InsertUidKeeps(uids: seq<nat>, uid: nat)
    requires Increasing(uids) && uid !in uids
    ensures Increasing(InsertUid(uids, uid))
    ensures forall x :: x in InsertUid(uids, uid) <==> x == uid || x in uids
  {
    hide Increasing;
    if uids != [] {
      Head(uids);
      assert uids == [uids[0]] + uids[1..];
      if uid <= uids[0] {
        InFront(uid, uids);
      } else {
        InsertUidKeeps(uids[1..], uid);
        InFront(uids[0], InsertUid(uids[1..], uid));
      }
    } else {
      InFront(uid, []);
    }
  }

  lemma Head(uids: seq<nat>)
    requires Increasing(uids) && uids != []
    ensures Increasing(uids[1..]) && forall x <- uids[1..] :: uids[0] < x
  {
    var rest := uids[1..];
    assert forall i | 0 <= i < |rest| :: rest[i] == uids[i + 1];
  }

  lemma InFront(uid: nat, rest: seq<nat>)
    requires (rest == [] || Increasing(rest)) && forall x <- rest :: uid < x
    ensures Increasing([uid] + rest)
  {
    var all := [uid] + rest;
    forall i, j | 0 <= i < j < |all| ensures all[i] < all[j] {
      assert all[j] == rest[j - 1] && rest[j - 1] in rest;
      assert i > 0 ==> all[i] == rest[i - 1];
    }
  }

  lemma Inhabited(s: seq<nat>)
    ensures s != [] ==> exists x :: x in s
  {
    assert s != [] ==> s[0] in s;
  }

  lemma AfterFirst(a: seq<nat>)
    requires a != [] && Increasing(a)
    ensures Increasing(a[1..]) && forall x :: x in a[1..] <==> x in a && x != a[0]
  {
    forall x ensures x in a[1..] <==> x in a && x != a[0] {
      assert a == [a[0]] + a[1..];
      if x in a[1..] {
        var k :| 0 <= k < |a[1..]| && a[1..][k] == x;
        assert a[k + 1] == x;
      }
    }
  }

  /** Two increasing lists of the same numbers are the same list. */
  lemma {:induction false} IncreasingUnique(a: seq<nat>, b: seq<nat>)
    requires Increasing(a) && Increasing(b) && forall x :: x in a <==> x in b
    ensures a == b
  {
    if a == [] || b == [] {
      Inhabited(a);
      Inhabited(b);
    } else {
      assert a[0] in b && b[0] in a;
      var i :| 0 <= i < |b| && b[i] == a[0];
      var j :| 0 <= j < |a| && a[j] == b[0];
      assert a[0] == b[0];
      AfterFirst(a);
      AfterFirst(b);
      IncreasingUnique(a[1..], b[1..]);
    }
  }

  /** Filtering, sorting and cutting the answer gives the batch of smallest identifiers. */
  method SearchUids(raw: seq<nat>, box: Mailbox, first: nat, limit: nat) returns (uids: seq<nat>)
    requires box.Valid() && SearchAnswer(raw, box, first)
    ensures uids == Batch(box.messages.Keys, first, box.uidNext, limit)
  {
    var sorted: seq<nat> := [];
    for i := 0 to |raw|
      invariant Increasing(sorted)
      invariant forall x :: x in sorted <==> x in raw[..i] && first <= x
    {
      assert raw[..i + 1] == raw[..i] + [raw[i]];
      assert raw[i] !in raw[..i];
      if raw[i] >= first {
        InsertUidKeeps(sorted, raw[i]);
        sorted := InsertUid(sorted, raw[i]);
      }
    }
    assert raw[..|raw|] == raw;
    uids := if limit < |sorted| then sorted[..limit] else sorted;
    SortedIsBatch(sorted, box.messages.Keys, first, box.uidNext, limit);
  }

  /** Cutting the increasing list of all identifiers from `first` on gives the batch. */
  lemma SortedIsBatch(sorted: seq<nat>, present: set<nat>, first: nat, hi: nat, limit: nat)
    requires Increasing(sorted) && (forall uid <- present :: uid < hi)
    requires forall x :: x in sorted <==> x in present && first <= x
    ensures Batch(present, first, hi, limit) == if limit < |sorted| then sorted[..limit] else sorted
  {
    var uids := Batch(present, first, hi, limit);
    BatchIsGood(present, first, hi, limit);
    assert forall i | 0 <= i < |uids| :: uids[i] in uids;
    if |uids| < limit {
      IncreasingUnique(uids, sorted);
    } else {
      PrefixOfIncreasing(uids, sorted);
    }
  }

  /** A downward-closed increasing list is a prefix of the increasing list of everything. */
  lemma PrefixOfIncreasing(part: seq<nat>, whole: seq<nat>)
    requires Increasing(part) && Increasing(whole) && (forall x <- part :: x in whole)
    requires forall x, i | x in whole && 0 <= i < |part| && x <= part[i] :: x in part
    ensures |part| <= |whole| && part == whole[..|part|]
  {
    if part != [] {
      var n := |part| - 1;
      UpTo(part, n);
      assert part[..n + 1] == part && part[n] in part;
      var m :| 0 <= m < |whole| && whole[m] == part[n];
      UpTo(whole, m);
      hide Increasing;
      forall x ensures x in part <==> x in whole[..m + 1] {
        if x in whole && x <= part[n] {
          assert x in part;
        }
      }
      IncreasingUnique(part, whole[..m + 1]);
    }
  }

  /** The first elements of an increasing list are those up to the last of them. */
  lemma UpTo(uids: seq<nat>, m: nat)
    requires Increasing(uids) && m < |uids|
    ensures Increasing(uids[..m + 1]) && forall x :: x in uids[..m + 1] <==> x in uids && x <= uids[m]
  {
    SplitAt(uids, m + 1);
    SplitAt(uids, m);
    hide Increasing;
    assert uids == uids[..m + 1] + uids[m + 1..] && uids[..m + 1] == uids[..m] + [uids[m]];
    assert uids[m..] == [uids[m]] + uids[m + 1..];
    assert uids[m] in uids[m..] && uids[m] in uids[..m + 1];
  }

  /** What comes later in an increasing list is larger. */
  lemma SplitAt(uids: seq<nat>, n: nat)
    requires Increasing(uids) && n <= |uids|
    ensures Increasing(uids[..n])
    ensures forall x, y | x in uids[..n] && y in uids[n..] :: x < y
    ensures forall y <- uids[n..] :: uids[n] <= y
  {
    forall y | y in uids[n..] ensures uids[n] <= y && forall x <- uids[..n] :: x < y {
      var j :| 0 <= j < |uids[n..]| && uids[n..][j] == y;
      assert uids[n + j] == y;
      forall x | x in uids[..n] ensures x < y {
        var i :| 0 <= i < n && uids[..n][i] == x;
        assert uids[i] == x;
      }
    }
  }

  // ---------------------------------------------------------------- process_inflight

  lemma NoSteps(p: Process, receiptOf: ArtifactKey -> string)
    ensures Steps(p, 0, receiptOf) == p
  {
  }

  lemma {:induction false} OneMore(p: Process, n: nat, receiptOf: ArtifactKey -> string)
    ensures Steps(p, n + 1, receiptOf) == Advance(Steps(p, n, receiptOf), receiptOf)
    decreases n
  {
    if n == 0 {
      assert Steps(p, 1, receiptOf) == Steps(Advance(p, receiptOf), 0, receiptOf);
    } else {
      OneMore(Advance(p, receiptOf), n - 1, receiptOf);
    }
  }

  /** The effects that concern one message. */
  lemma OpenIs(p: Process, receiptOf: ArtifactKey -> string)
    requires p.pc.Open? && p.pc.i < |p.mem.messages|
    ensures var i, key := p.pc.i, KeyOf(p.mem, p.pc.i);
            Advance(p, receiptOf) ==
              if key !in p.server.sessions then p.Ask(OpenSession(p.server, key), Put(i))
              else if p.server.sessions[key].Created? then p.(pc := Put(i))
              else if p.server.sessions[key].Verified? then p.(pc := Finalize(i))
              else p.(pc := Note(i, receiptOf(key)))
  {
    hide MoveCursor, Accept, OpenSession;
  }

  lemma TransferIs(p: Process, receiptOf: ArtifactKey -> string)
    requires (p.pc.Put? || p.pc.Finalize?) && p.pc.i < |p.mem.messages| && p.pc.i < |p.contents|
    ensures var i, key := p.pc.i, KeyOf(p.mem, p.pc.i);
            Advance(p, receiptOf) ==
              if p.pc.Put? then p.Ask(UploadTo(p.server, key, p.contents[i]), Finalize(i))
              else p.Ask(FinalizeSession(p.server, key), Note(i, receiptOf(key)))
  {
    hide MoveCursor, Accept, UploadTo, FinalizeSession;
  }

  lemma NoteIs(p: Process, receiptOf: ArtifactKey -> string)
    requires p.pc.Note?
    ensures Advance(p, receiptOf) == if p.pc.receipt in p.mem.receiptIds then p.(pc := Open(p.pc.i + 1))
                                     else p.Save(p.mem.(receiptIds := p.mem.receiptIds + [p.pc.receipt]), Open(p.pc.i + 1))
  {
    hide MoveCursor, Accept;
  }

  lemma EndingIs(p: Process, receiptOf: ArtifactKey -> string)
    ensures p.pc.Open? && p.pc.i >= |p.mem.messages| ==> Advance(p, receiptOf) == p.(pc := Verify)
    ensures p.pc == Complete ==> Advance(p, receiptOf) == p.(server := Accept(p.server, p.mem), pc := Finish)
    ensures p.pc == Finish ==> Advance(p, receiptOf) == p.(disk := WorkerState(MoveCursor(p.disk.cursors, p.mem), None), pc := Done)
  {
    hide MoveCursor, Accept;
  }

  /** `refetch_and_verify`: the messages are fetched again and compared, or it raises and nothing is done. */
  method RefetchAndVerify(box: Mailbox, f: Inflight, sha: string -> string) returns (contents: Option<seq<string>>)
    ensures contents.Some? <==> Replayable(box, f, sha)
    ensures contents.Some? ==> contents.value == Refetched(box, f, sha)
  {
    if box.uidValidity != f.uidValidity { return None; }
    var found: seq<string> := [];
    for i := 0 to |f.messages|
      invariant |found| == i
      invariant forall k | 0 <= k < i :: var m := f.messages[k];
        m.uid in box.messages && found[k] == box.messages[m.uid] && |found[k]| == m.size && sha(found[k]) == m.sha256
    {
      var m := f.messages[i];
      if m.uid !in box.messages || |box.messages[m.uid]| != m.size || sha(box.messages[m.uid]) != m.sha256 { return None; }
      found := found + [box.messages[m.uid]];
    }
    return Some(found);
  }

  /** The importer at work on its in-flight record. It dies when it has used up `lives` effects. */
  class Importer {
    var mem: Inflight
    var disk: WorkerState
    var server: Server
    var lives: nat

    const contents: seq<string>

    ghost const start: Process
    ghost var pc: Pc
    ghost var taken: nat

    ghost function View(): Process
      reads this
    {
      Process(mem, contents, disk, server, pc)
    }

    /** What has happened so far is `taken` steps of the small-step process. */
    ghost predicate OnTrack(receiptOf: ArtifactKey -> string)
      reads this
    {
      View() == Steps(start, taken, receiptOf)
    }

    constructor (f: Inflight, contents: seq<string>, w: World, lives: nat)
      ensures View() == start == Process(f, contents, w.disk, w.server, Begin) && taken == 0 && this.lives == lives
    {
      this.contents := contents;
      mem, disk, server, this.lives := f, w.disk, w.server, lives;
      pc, taken, start := Begin, 0, Process(f, contents, w.disk, w.server, Begin);
    }

    /** Nothing observable happens between two effects. */
    ghost method Silent(next: Pc, receiptOf: ArtifactKey -> string)
      requires OnTrack(receiptOf) && Advance(View(), receiptOf) == View().(pc := next)
      modifies this`pc, this`taken
      ensures OnTrack(receiptOf) && pc == next
    {
      OneMore(start, taken, receiptOf);
      pc, taken := next, taken + 1;
    }

    /** One execution report to the control plane. */
    method Tell(operation: string, ghost next: Pc, receiptOf: ArtifactKey -> string) returns (alive: bool)
      requires OnTrack(receiptOf) && Advance(View(), receiptOf) == View().Tell(operation, next)
      modifies this`server, this`lives, this`pc, this`taken
      ensures OnTrack(receiptOf) && alive == (old(lives) > 0)
      ensures if alive then pc == next && lives == old(lives) - 1 else pc == old(pc) && lives == old(lives)
    {
      if lives == 0 { return false; }
      OneMore(start, taken, receiptOf);
      lives, server := lives - 1, server.(operations := server.operations + {(mem.job.id, operation)});
      pc, taken := next, taken + 1;
      return true;
    }

    /** `store.save`: the whole state file is replaced. */
    method Save(f: Inflight, ghost next: Pc, receiptOf: ArtifactKey -> string) returns (alive: bool)
      requires OnTrack(receiptOf) && Advance(View(), receiptOf) == View().Save(f, next)
      modifies this`mem, this`disk, this`lives, this`pc, this`taken
      ensures OnTrack(receiptOf) && alive == (old(lives) > 0)
      ensures if alive then pc == next && mem == f && lives == old(lives) - 1 else pc == old(pc) && mem == old(mem) && lives == old(lives)
      ensures disk == if alive then old(disk).(inflight := Some(f)) else old(disk)
    {
      if lives == 0 { return false; }
      OneMore(start, taken, receiptOf);
      lives, mem := lives - 1, f;
      disk := disk.(inflight := Some(mem));
      pc, taken := next, taken + 1;
      return true;
    }

    /** A request about an upload session. */
    method Ask(answered: Server, ghost next: Pc, receiptOf: ArtifactKey -> string) returns (alive: bool)
      requires OnTrack(receiptOf) && Advance(View(), receiptOf) == View().Ask(answered, next)
      modifies this`server, this`lives, this`pc, this`taken
      ensures OnTrack(receiptOf) && alive == (old(lives) > 0)
      ensures server == if alive then answered else old(server)
      ensures if alive then pc == next && lives == old(lives) - 1 else pc == old(pc) && lives == old(lives)
    {
      if lives == 0 { return false; }
      OneMore(start, taken, receiptOf);
      lives, server := lives - 1, answered;
      pc, taken := next, taken + 1;
      return true;
    }

    /** `artifact_receipt_from_session`: create or resume the session, upload, finalize. A receipt is returned only
        for a finalized session; a session it creates or finds empty then holds this message's bytes. */
    method ArtifactReceipt(i: nat, receiptOf: ArtifactKey -> string) returns (receipt: Option<string>)
      requires i < |mem.messages| && i < |contents| && pc == Open(i) && OnTrack(receiptOf)
      modifies this`server, this`lives, this`pc, this`taken
      ensures OnTrack(receiptOf) && lives <= old(lives)
      ensures receipt.Some? ==> pc == Note(i, receipt.value) && old(lives) - lives <= 3
      ensures receipt.None? ==> lives == 0 && old(lives) < 3
      ensures receipt.Some? ==>
        var key, sessions := KeyOf(mem, i), old(server).sessions;
        && receipt.value == receiptOf(key)
        && server == old(server).(sessions := sessions[key := Finalized(
             if key !in sessions || sessions[key].Created? then contents[i] else sessions[key].content)])
    {
      hide Advance, Steps, KeyOf;
      var key := KeyOf(mem, i);
      var alive;
      OpenIs(View(), receiptOf);
      if key in server.sessions && server.sessions[key].Finalized? {
        Silent(Note(i, receiptOf(key)), receiptOf);
        return Some(receiptOf(key));
      }
      if key !in server.sessions {
        alive := Ask(OpenSession(server, key), Put(i), receiptOf);
        if !alive { return None; }
        TransferIs(View(), receiptOf);
        alive := Ask(UploadTo(server, key, contents[i]), Finalize(i), receiptOf);
        if !alive { return None; }
      } else if server.sessions[key].Created? {
        Silent(Put(i), receiptOf);
        TransferIs(View(), receiptOf);
        alive := Ask(UploadTo(server, key, contents[i]), Finalize(i), receiptOf);
        if !alive { return None; }
      } else {
        Silent(Finalize(i), receiptOf);
      }
      TransferIs(View(), receiptOf);
      alive := Ask(FinalizeSession(server, key), Note(i, receiptOf(key)), receiptOf);
      if !alive { return None; }
      return Some(receiptOf(key));
    }

    /** The upload loop. */
    method UploadAll(receiptOf: ArtifactKey -> string) returns (alive: bool)
      requires pc == Open(0) && OnTrack(receiptOf) && |contents| == |mem.messages|
      modifies this
      ensures OnTrack(receiptOf) && lives <= old(lives)
      ensures alive ==> pc == Verify && old(lives) - lives <= 4 * |old(mem).messages|
      ensures !alive ==> lives == 0 && old(lives) < 4 * |old(mem).messages|
    {
      hide Advance, Steps, KeyOf;
      for i := 0 to |mem.messages|
        invariant pc == Open(i) && OnTrack(receiptOf) && mem.messages == old(mem).messages
        invariant lives <= old(lives) <= lives + 4 * i
      {
        var receipt := ArtifactReceipt(i, receiptOf);
        if receipt.None? { return false; }
        NoteIs(View(), receiptOf);
        if receipt.value in mem.receiptIds {
          Silent(Open(i + 1), receiptOf);
        } else {
          alive := Save(mem.(receiptIds := mem.receiptIds + [receipt.value]), Open(i + 1), receiptOf);
          if !alive { return false; }
        }
      }
      EndingIs(View(), receiptOf);
      Silent(Verify, receiptOf);
      return true;
    }

    /** The reports of starting, uploading and verifying: sent and saved once, skipped in a replay. */
    method ReportStart(receiptOf: ArtifactKey -> string) returns (alive: bool)
      requires pc == Begin && OnTrack(receiptOf)
      modifies this
      ensures OnTrack(receiptOf) && mem.messages == old(mem.messages)
      ensures alive ==> pc == Upload && lives >= old(lives) - 2
      ensures !alive ==> lives == 0 && old(lives) < 2
    {
      if mem.started { Silent(Upload, receiptOf); return true; }
      alive := Tell("start", SaveStarted, receiptOf);
      if alive { alive := Save(mem.(started := true), Upload, receiptOf); }
    }

    method ReportUploading(receiptOf: ArtifactKey -> string) returns (alive: bool)
      requires pc == Upload && OnTrack(receiptOf)
      modifies this
      ensures OnTrack(receiptOf) && mem.messages == old(mem.messages)
      ensures alive ==> pc == Open(0) && lives >= old(lives) - 2
      ensures !alive ==> lives == 0 && old(lives) < 2
    {
      if mem.uploading { Silent(Open(0), receiptOf); return true; }
      alive := Tell("uploading", SaveUploading, receiptOf);
      if alive { alive := Save(mem.(uploading := true), Open(0), receiptOf); }
    }

    method ReportVerifying(receiptOf: ArtifactKey -> string) returns (alive: bool)
      requires pc == Verify && OnTrack(receiptOf)
      modifies this
      ensures OnTrack(receiptOf)
      ensures alive ==> pc == Complete && lives >= old(lives) - 2
      ensures !alive ==> lives == 0 && old(lives) < 2
    {
      if mem.verifying { Silent(Complete, receiptOf); return true; }
      alive := Tell("verifying", SaveVerifying, receiptOf);
      if alive { alive := Save(mem.(verifying := true), Complete, receiptOf); }
    }

    /** `process_inflight` after the messages were fetched again and compared: whatever it leaves
        behind when it dies, and when it ends, is a state of the small-step process; it ends whenever
        it survives four effects per message and eight more. */
    method ProcessInflight(receiptOf: ArtifactKey -> string) returns (alive: bool)
      requires pc == Begin && taken == 0 && View() == start && |contents| == |mem.messages|
      modifies this
      ensures View() == Steps(old(View()), taken, receiptOf)
      ensures alive ==> pc == Done
      ensures old(lives) >= 4 * |old(mem).messages| + 8 ==> alive
    {
      hide Advance, Steps;
      ghost var begun := View();
      NoSteps(begun, receiptOf);
      alive := ReportStart(receiptOf);
      if alive { alive := ReportUploading(receiptOf); }
      if alive { alive := UploadAll(receiptOf); }
      if alive { alive := ReportVerifying(receiptOf); }
      if alive { alive := CompleteAndMoveCursor(receiptOf); }
    }

    /** The final report and the cursor update. */
    method CompleteAndMoveCursor(receiptOf: ArtifactKey -> string) returns (alive: bool)
      requires pc == Complete && OnTrack(receiptOf)
      modifies this
      ensures OnTrack(receiptOf)
      ensures alive ==> pc == Done
      ensures old(lives) >= 2 ==> alive
    {
      hide Advance, Steps, Accept;
      if lives == 0 { return false; }
      OneMore(start, taken, receiptOf);
      EndingIs(View(), receiptOf);
      lives, server := lives - 1, Accept(server, mem);
      pc, taken := Finish, taken + 1;
      if lives == 0 { return false; }
      OneMore(start, taken, receiptOf);
      EndingIs(View(), receiptOf);
      var cursors := disk.cursors;
      if mem.messages != [] {
        var lastUid := MaxUid(mem.messages);
        cursors := cursors[mem.job.cursorKey := Cursor(mem.uidValidity, lastUid)];
      } else if mem.job.cursorKey !in cursors {
        cursors := cursors[mem.job.cursorKey := Cursor(mem.uidValidity, 0)];
      }
      lives, disk := lives - 1, WorkerState(cursors, None);
      pc, taken := Done, taken + 1;
      return true;
    }
  }

  /** The largest identifier of the messages. */
  method MaxUid(messages: seq<Evidence>) returns (last: nat)
    requires messages != []
    ensures last == LastUid(messages)
    ensures exists i | 0 <= i < |messages| :: messages[i].uid == last
    ensures forall i | 0 <= i < |messages| :: messages[i].uid <= last
  {
    last := messages[0].uid;
    for i := 1 to |messages|
      invariant last == LastUid(messages[..i])
      invariant exists j | 0 <= j < i :: messages[j].uid == last
      invariant forall j | 0 <= j < i :: messages[j].uid <= last
    {
      assert messages[..i + 1][..i] == messages[..i];
      if messages[i].uid > last { last := messages[i].uid; }
    }
    assert messages[..|messages|] == messages;
  }
}
