/** The relocation itself (`workers/local_folder/ukipo_visual_relocate.py:218-341`): additive,
    resumable, never overwriting. A run may die before any file operation, and between any two of
    them other relocation runs may add and remove files of their own. */
module RelocationRun {
  import opened Common
  import opened RelocationStore

  /** What happens around one file operation: what others added and removed, and the bytes that reach
      the disk when a copy goes wrong on the way. */
  datatype Moment = Moment(added: Tree, removed: set<string>, arrives: Option<string>)

  /** Other runs keep to the same rules: they add temporary files and true copies where nothing is,
      remove only temporary files, and never touch `mine`. */
  function Meanwhile(target: Tree, m: Moment, source: Tree, mine: set<string>): Tree {
    map p | p in target.Keys + m.added.Keys
          && (if p in target then !(IsTemp(p) && p in m.removed && p !in mine)
              else p !in mine && (IsTemp(p) || (p in source && source[p] == m.added[p])))
      :: if p in target then target[p] else m.added[p]
  }

  /** From `before` to `after` no object was overwritten or deleted, and every object that is new is a
      byte-identical source object. */
  ghost predicate Preserves(source: Tree, before: Tree, after: Tree) {
    && (forall p | p in before && !IsTemp(p) :: p in after && after[p] == before[p])
    && forall p | p in after && !IsTemp(p) && p !in before :: p in source && after[p] == source[p]
  }

  lemma PreservesTransitive(source: Tree, a: Tree, b: Tree, c: Tree)
    requires Preserves(source, a, b) && Preserves(source, b, c)
    ensures Preserves(source, a, c)
  {
  }

  lemma MeanwhilePreserves(target: Tree, m: Moment, source: Tree, mine: set<string>)
    ensures var after := Meanwhile(target, m, source, mine);
            && Preserves(source, target, after)
            && (forall p | p in target && p in mine :: p in after && after[p] == target[p])
            && (forall p | p in mine && p !in target :: p !in after)
  {
  }

  datatype Outcome = Copied | Reused | Raised(reason: string) | Died

  datatype Receipt = Receipt(sourceFacts: Facts, targetFacts: Facts, copied: nat, reused: nat)

  datatype RunResult = Accepted(receipt: Receipt) | Refused(reason: string) | Crashed

  /** What the disk reports before and after, and what the frozen plan demands of it. */
  datatype Capacity = Capacity(total: int, plannedTotal: int, free: int, freeAfter: int, floor: int)

  /** `reserve_floor` */
  function ReserveFloor(totalBytes: nat): nat {
    (totalBytes * 30 + 99) / 100 + 64 * 1024 * 1024 * 1024
  }

  /** The floor is thirty percent, rounded up, and 64 GiB. */
  lemma ReserveFloorRoundsUp(totalBytes: nat)
    ensures var reserve := ReserveFloor(totalBytes) - 64 * 1024 * 1024 * 1024;
            100 * reserve >= 30 * totalBytes > 100 * (reserve - 1)
  {
  }

  class Relocation {
    const w: World
    var source: Tree
    var target: Tree
    var receipt: Option<Receipt>

    /** How many more file operations this run survives, and what happens around them. */
    var lives: nat
    var moments: seq<Moment>

    constructor (w: World, source: Tree, target: Tree)
      ensures this.w == w && this.source == source && this.target == target && receipt == None
    {
      this.w, this.source, this.target, receipt, lives, moments := w, source, target, None, 0, [];
    }

    /** Up to the next file operation: others may act, or the run may die. */
    method Next(mine: set<string>) returns (alive: bool, arrives: Option<string>)
      modifies this`target, this`lives, this`moments
      ensures Preserves(source, old(target), target)
      ensures forall p | p in old(target) && p in mine :: p in target && target[p] == old(target)[p]
      ensures forall p | p in mine && p !in old(target) :: p !in target
      ensures alive <==> old(lives) > 0
      ensures alive ==> lives == old(lives) - 1
      ensures !alive ==> lives == 0
      ensures old(moments) == [] ==> target == old(target) && moments == [] && arrives.None?
    {
      arrives := None;
      if moments != [] {
        arrives := moments[0].arrives;
        MeanwhilePreserves(target, moments[0], source, mine);
        target := Meanwhile(target, moments[0], source, mine);
        moments := moments[1..];
      }
      alive := lives > 0;
      if alive { lives := lives - 1; }
    }

    /** The test an existing object has to pass. */
    predicate Matches(o: Object, content: string) {
      |content| == o.size && w.sha(content) == o.digest
    }

    /** `copy_object`. */
    method CopyObject(o: Object, salt: string) returns (r: Outcome)
      requires w.Valid() && o.relative in source && IsSound(w, o, source[o.relative])
      modifies this`target, this`lives, this`moments
      ensures Preserves(source, old(target), target)
      ensures r.Copied? || r.Reused? ==> o.relative in target && target[o.relative] == source[o.relative]
      ensures r.Copied? ==> o.relative !in old(target)
      ensures old(lives) >= 4 ==> !r.Died?
      ensures !r.Died? ==> lives >= old(lives) - 4
      ensures old(moments) == [] ==> moments == []
      ensures old(moments) == [] && !r.Died? && !r.Raised? ==>
        && (r.Copied? <==> o.relative !in old(target))
        && target == old(target)[o.relative := source[o.relative]]
        && lives == old(lives) - if r.Copied? then 4 else 0
      ensures r.Died? ==> o.relative !in old(target) && if old(lives) > 0 then HasTemp(target) else old(moments) == [] ==> target == old(target)
      ensures old(moments) == [] && Clear(source, old(target), o, salt) ==> !r.Raised?
    {
      hide Preserves;
      var path := o.relative;
      NamedPath(w, o);
      PreservesSame(source, target);
      TempNameIsTemp(path, o.digest, salt);
      if path in target {
        SameContent(w, o, target[path], source[path]);
        return if Matches(o, target[path]) then Reused else Raised("existing F CAS object mismatch");
      }
      r := CopyNew(o, TempName(path, o.digest, salt));
    }

    /** The copy proper, when nothing stood at the path: temporary file, verification, link. */
    method CopyNew(o: Object, temp: string) returns (r: Outcome)
      requires w.Valid() && o.relative in source && IsSound(w, o, source[o.relative])
      requires IsTemp(temp) && !IsTemp(o.relative) && o.relative !in target
      modifies this`target, this`lives, this`moments
      ensures Preserves(source, old(target), target)
      ensures r.Copied? || r.Reused? ==> o.relative in target && target[o.relative] == source[o.relative]
      ensures old(lives) >= 4 ==> !r.Died?
      ensures !r.Died? ==> lives >= old(lives) - 4
      ensures old(moments) == [] ==> moments == []
      ensures old(moments) == [] && !r.Died? && !r.Raised? ==>
        r == Copied && target == old(target)[o.relative := source[o.relative]] && lives == old(lives) - 4
      ensures r.Died? ==> if old(lives) > 0 then temp in target else old(moments) == [] ==> target == old(target)
      ensures old(moments) == [] && temp !in old(target) ==> !r.Raised?
    {
      hide Preserves;
      ghost var t0 := target;
      PreservesSame(source, t0);
      var alive, _ := Next({});
      if !alive { return Died; }
      if o.relative in target { return Raised("target appeared before immutable copy"); }
      if temp in target { return Raised("temporary name taken"); }
      ghost var t1 := target;
      alive := Fill(o, temp);
      ghost var t2 := target;
      PreservesTransitive(source, t0, t1, t2);
      if !alive { return Died; }
      var data := target[temp];
      if !Matches(o, data) {
        r := Discard(temp, Raised("temporary F CAS verification failed"));
      } else {
        SameContent(w, o, data, source[o.relative]);
        r := Publish(o, temp);
      }
      PreservesTransitive(source, t0, t2, target);
      assert old(moments) == [] && r.Copied? ==> target == t0[o.relative := source[o.relative]];
    }

    /** The temporary file is created and filled; dying in between leaves it behind, perhaps in part. */
    method Fill(o: Object, temp: string) returns (alive: bool)
      requires o.relative in source && IsTemp(temp) && temp !in target
      modifies this`target, this`lives, this`moments
      ensures Preserves(source, old(target), target) && temp in target
      ensures alive <==> old(lives) > 0
      ensures alive ==> lives == old(lives) - 1
      ensures old(moments) == [] ==> moments == [] && target == old(target)[temp := source[o.relative]]
    {
      target := target[temp := ""];
      var arrives;
      alive, arrives := Next({temp});
      target := target[temp := if arrives.Some? then arrives.value else source[o.relative]];
    }

    /** `temp.unlink`, on the way out with `outcome`. */
    method Discard(temp: string, outcome: Outcome) returns (r: Outcome)
      requires IsTemp(temp)
      modifies this`target, this`lives, this`moments
      ensures Preserves(source, old(target), target)
      ensures r == if old(lives) > 0 then outcome else Died
      ensures old(lives) > 0 ==> lives == old(lives) - 1
      ensures old(lives) == 0 && temp in old(target) ==> temp in target
      ensures old(moments) == [] ==> moments == [] && (old(lives) > 0 ==> target == old(target) - {temp})
    {
      var alive, _ := Next({temp});
      if !alive { return Died; }
      target := target - {temp};
      return outcome;
    }

    /** The link, which fails where something stands already, and the removal of the temporary file. */
    method Publish(o: Object, temp: string) returns (r: Outcome)
      requires w.Valid() && o.relative in source && IsSound(w, o, source[o.relative])
      requires IsTemp(temp) && !IsTemp(o.relative) && temp in target && target[temp] == source[o.relative]
      modifies this`target, this`lives, this`moments
      ensures Preserves(source, old(target), target)
      ensures r.Copied? || r.Reused? ==> o.relative in target && target[o.relative] == source[o.relative]
      ensures r.Copied? ==> o.relative !in old(target)
      ensures old(lives) >= 2 ==> !r.Died?
      ensures !r.Died? ==> lives == old(lives) - 2
      ensures r.Died? ==> temp in target
      ensures old(moments) == [] ==> moments == []
      ensures old(moments) == [] && !r.Died? && o.relative !in old(target) ==>
        r == Copied && target == old(target)[o.relative := source[o.relative]] - {temp}
    {
      var path := o.relative;
      var alive, _ := Next({temp});
      if !alive { return Died; }
      ghost var before := target;
      if path in target {
        SameContent(w, o, target[path], source[path]);
        r := Discard(temp, if Matches(o, target[path]) then Reused else Raised("raced existing F CAS object mismatch"));
      } else {
        target := target[path := target[temp]];
        r := Discard(temp, Copied);
      }
      PreservesTransitive(source, old(target), before, target);
    }

    /** The copy loop (lines 299-310). */
    method CopyAll(objects: seq<Object>, salt: nat -> string) returns (failure: Option<Outcome>, copied: nat, reused: nat)
      requires w.Valid() && Describes(w, objects, source)
      modifies this`target, this`lives, this`moments
      ensures Preserves(source, old(target), target)
      ensures failure.None? ==> copied + reused == |objects| && forall p | p in source :: p in target && target[p] == source[p]
      ensures failure != Some(Copied) && failure != Some(Reused)
      ensures old(lives) >= 4 * |objects| ==> failure != Some(Died)
      ensures old(moments) == [] ==> moments == []
      ensures old(moments) == [] && failure.None? ==> copied == |source.Keys - old(target).Keys| && target == old(target) + source
      ensures old(moments) == [] && Agrees(old(target), source) ==>
        && (failure.None? || failure == Some(Died))
        && (failure == Some(Died) <==> old(lives) < 4 * |source.Keys - old(target).Keys|)
        && (failure == Some(Died) ==> (HasTemp(target) <==> old(lives) % 4 != 0))
    {
      hide Preserves, IsSound, Clear, Agrees, Describes, Done, Undisturbed, HasTemp;
      ghost var t0, lives0, alone := target, lives, moments == [];
      PreservesSame(source, t0);
      failure, copied, reused := None, 0, 0;
      NothingDone(source, t0, lives);
      for i := 0 to |objects|
        invariant Preserves(source, t0, target)
        invariant copied + reused == i
        invariant Done(source, target, objects[..i])
        invariant lives0 - lives <= 4 * i
        invariant alone ==> moments == [] && Undisturbed(source, t0, target, objects[..i], copied, lives0, lives)
      {
        var o := objects[i];
        Described(w, source, objects, i);
        ghost var before, left := target, lives;
        if alone && Agrees(t0, source) {
          UndisturbedIsClear(w, source, t0, before, objects, i, copied, lives0, left, salt(i));
        }
        var r := CopyObject(o, salt(i));
        PreservesTransitive(source, t0, before, target);
        if r.Died? || r.Raised? {
          if alone && Agrees(t0, source) {
            UndisturbedDeath(w, source, t0, before, target, objects, i, copied, lives0, left);
          }
          return Some(r), copied, reused;
        }
        OneMoreDone(w, source, before, target, objects, i);
        if alone {
          OneMoreUndisturbed(w, source, t0, before, target, objects, i, copied, lives0, left, lives);
        }
        if r.Copied? { copied := copied + 1; } else { reused := reused + 1; }
      }
      assert objects[..|objects|] == objects;
      AllDone(w, source, target, objects);
      if alone {
        UndisturbedEnd(w, source, t0, target, objects, copied, lives0, lives);
      }
    }

    /** The checks before anything is copied (lines 264-296): the source is the accepted one, what the
        target holds is part of it, and there is room for the rest. */
    method Admit(expected: Facts, capacity: Capacity) returns (objects: Option<seq<Object>>)
      requires w.Valid()
      ensures objects.Some? <==> Admissible(w, source, target, receipt, expected, capacity)
      ensures objects.Some? ==> Checked(w, source) == objects
    {
      hide Describes, Checked, Index, Named;
      if receipt.Some? { return None; }
      objects := CheckedObjects(w, source);
      if objects.None? { return; }
      var facts := TakeInventory(w, objects.value);
      if facts != expected || capacity.total != capacity.plannedTotal { return None; }
      var existing := CheckedObjects(w, target);
      if existing.None? { return None; }
      CheckedDescribes(w, target);
      CheckedDescribes(w, source);
      SameMeansAgrees(w, source, target, objects.value, existing.value);
      if exists o <- existing.value :: o.relative !in source || !Same(o, objects.value) { return None; }
      var have := TakeInventory(w, existing.value);
      var missing := expected.bytes - have.bytes;
      if missing < 0 || capacity.free - missing < capacity.floor { return None; }
    }

    /** `apply_relocation`. Whatever happens around it and wherever it dies, no object is overwritten or
        deleted and every new object is a true copy. An accepted run leaves the target equal to the
        source and has accounted for every object. Undisturbed and given time, it is accepted exactly
        when its demands are met. */
    method Apply(expected: Facts, capacity: Capacity, salt: nat -> string) returns (r: RunResult)
      requires w.Valid()
      modifies this`target, this`lives, this`moments, this`receipt
      ensures Preserves(source, old(target), target)
      ensures receipt == if r.Accepted? then Some(r.receipt) else old(receipt)
      ensures r.Accepted? ==>
        && target == source
        && r.receipt.copied + r.receipt.reused == |source|
        && r.receipt.sourceFacts == r.receipt.targetFacts == expected
      ensures !Admissible(w, source, old(target), old(receipt), expected, capacity) ==> r.Refused? && target == old(target)
      ensures old(moments) == [] && r.Accepted? ==> r.receipt.copied == |source.Keys - old(target).Keys|
      ensures old(moments) == [] && Admissible(w, source, old(target), old(receipt), expected, capacity) ==>
        && (r.Crashed? <==> old(lives) < 4 * |source.Keys - old(target).Keys|)
        && (r.Crashed? ==> (HasTemp(target) <==> old(lives) % 4 != 0))
      ensures old(moments) == [] && old(lives) >= 4 * |source| ==>
        (r.Accepted? <==> Admissible(w, source, old(target), old(receipt), expected, capacity) && capacity.freeAfter >= capacity.floor)
    {
      hide Preserves, Checked, Describes, Admissible, Named, Index, IsSound, HasTemp, Agrees, Bytes;
      PreservesSame(source, target);
      ghost var t0 := target;
      var objects := Admit(expected, capacity);
      if objects.None? { return Refused("not admissible"); }
      AdmittedSource(w, source, target, receipt, expected, capacity);
      var failure, copied, reused := CopyAll(objects.value, salt);
      if failure.Some? { return if failure.value.Died? then Crashed else Refused("copy failed"); }
      if old(moments) == [] { MergedIsSource(source, t0, target); }
      var verified := Verify(expected);
      if !verified { return Refused("target differs from the source, or the source changed"); }
      if capacity.freeAfter < capacity.floor { return Refused("no room left"); }
      r := Accepted(Receipt(expected, expected, copied, reused));
      receipt := Some(r.receipt);
    }

    /** The checks after the copy (lines 310-316): the target, read again, has the accepted inventory,
        and so has the source; then they are equal byte for byte. */
    method Verify(expected: Facts) returns (ok: bool)
      requires w.Valid() && Checked(w, source).Some? && Inventory(w, Checked(w, source).value) == expected
      ensures ok <==> target == source
    {
      hide Checked, Index;
      var copies := CheckedObjects(w, target);
      if copies.None? { return false; }
      var targetFacts := TakeInventory(w, copies.value);
      SameInventorySameTree(w, target, source);
      if targetFacts != expected { return false; }
      var after := CheckedObjects(w, source);
      var sourceFacts := TakeInventory(w, after.value);
      return sourceFacts == expected;
    }

    /** Any number of runs, one after the other. */
    method Runs(inputs: seq<RunInput>, expected: Facts, salt: nat -> string)
      requires w.Valid()
      modifies this`target, this`lives, this`moments, this`receipt
      ensures Preserves(source, old(target), target)
      ensures old(receipt).None? && receipt.Some? ==>
                target == source && receipt.value.copied + receipt.value.reused == |source|
    {
      hide Preserves, Admissible;
      PreservesSame(source, target);
      for i := 0 to |inputs|
        invariant Preserves(source, old(target), target)
        invariant old(receipt).None? && receipt.Some? ==>
                    target == source && receipt.value.copied + receipt.value.reused == |source|
      {
        ghost var before := target;
        OpenReceipt(w, source, target, receipt, expected, inputs[i].capacity);
        lives, moments := inputs[i].lives, inputs[i].moments;
        var _ := Apply(expected, inputs[i].capacity, salt);
        PreservesTransitive(source, old(target), before, target);
      }
    }

    /** An undisturbed run dies when its file operations do not reach for what is missing. With the
        receipt open and room on the disk, the next run is admitted exactly when the dead one left no
        temporary file, that is, when it died between two copies; otherwise it refuses and the target
        stays as the dead run left it. */
    method DieAndRetry(expected: Facts, capacity: Capacity, again: RunInput, salt: nat -> string)
      returns (first: RunResult, second: RunResult, left: Tree)
      requires w.Valid() && moments == [] && Admissible(w, source, target, receipt, expected, capacity)
      requires lives < 4 * |source.Keys - target.Keys|
      modifies this`target, this`lives, this`moments, this`receipt
      ensures first.Crashed? && (HasTemp(left) <==> old(lives) % 4 != 0)
      ensures Admissible(w, source, left, None, expected, again.capacity)
         <==> old(lives) % 4 == 0 && HasRoom(w, left, expected, again.capacity)
      ensures old(lives) % 4 != 0 ==> second.Refused? && target == left
      ensures again.moments == [] && again.lives >= 4 * |source| ==>
        (second.Accepted? <==> old(lives) % 4 == 0 && HasRoom(w, left, expected, again.capacity)
                               && again.capacity.freeAfter >= again.capacity.floor)
    {
      hide Preserves, Admissible, HasTemp, HasRoom;
      ghost var before := target;
      OpenReceipt(w, source, target, receipt, expected, capacity);
      first := Apply(expected, capacity, salt);
      left := target;
      AfterDeath(w, source, before, left, receipt, expected, capacity, again.capacity);
      lives, moments := again.lives, again.moments;
      second := Apply(expected, again.capacity, salt);
    }
  }

  /** What one run meets. */
  datatype RunInput = RunInput(lives: nat, moments: seq<Moment>, capacity: Capacity)

  ghost predicate HasTemp(target: Tree) {
    exists p | p in target :: IsTemp(p)
  }

  /** Nothing stands in the way of copying `o`: no other content, no file with the temporary name. */
  ghost predicate Clear(source: Tree, target: Tree, o: Object, salt: string) {
    && o.relative in source && |o.relative| >= 13
    && (o.relative in target ==> target[o.relative] == source[o.relative])
    && TempName(o.relative, o.digest, salt) !in target
  }

  lemma PreservesSame(source: Tree, target: Tree)
    ensures Preserves(source, target, target)
  {
  }

  lemma NamedPath(w: World, o: Object)
    requires Named(o.relative).Some?
    ensures |o.relative| >= 13 && !IsTemp(o.relative)
  {
    if IsTemp(o.relative) {
      TempIsNoObject(o.relative);
    }
  }

  /** Equal hashes mean equal bytes. */
  lemma SameContent(w: World, o: Object, content: string, original: string)
    requires w.Valid() && IsSound(w, o, original)
    ensures |content| == o.size && w.sha(content) == o.digest <==> content == original
  {
  }

  // ---------------------------------------------------------------- what the loop has done

  function Relatives(objects: seq<Object>): set<string> {
    set o <- objects :: o.relative
  }

  /** The target holds nothing but objects, none of them different from the source's. */
  ghost predicate Agrees(target: Tree, source: Tree) {
    forall p | p in target :: Named(p).Some? && (p in source ==> target[p] == source[p])
  }

  ghost predicate Done(source: Tree, target: Tree, objects: seq<Object>) {
    forall o <- objects :: o.relative in source && o.relative in target && target[o.relative] == source[o.relative]
  }

  ghost function Merged(source: Tree, target: Tree, objects: seq<Object>): Tree {
    map p | p in target.Keys + (Relatives(objects) * source.Keys) :: if p in Relatives(objects) && p in source then source[p] else target[p]
  }

  /** Nobody else acts: the target is the merge so far, the copied objects are those that were
      missing, and each of them took four file operations. */
  ghost predicate Undisturbed(source: Tree, t0: Tree, target: Tree, objects: seq<Object>, copied: nat, lives0: nat, lives: nat) {
    target == Merged(source, t0, objects) && copied == |Relatives(objects) - t0.Keys| && lives0 == lives + 4 * copied
  }

  lemma NothingDone(source: Tree, target: Tree, lives: nat)
    ensures Undisturbed(source, target, target, [], 0, lives, lives) && Done(source, target, [])
  {
  }

  lemma RelativesAppend(objects: seq<Object>, o: Object)
    ensures Relatives(objects + [o]) == Relatives(objects) + {o.relative}
  {
    assert (objects + [o])[|objects|] == o;
    assert forall q <- objects :: q in objects + [o];
  }

  /** The object of the same name in the other tree has the same size and digest. */
  predicate Same(o: Object, objects: seq<Object>) {
    exists q <- objects :: q.relative == o.relative && q.size == o.size && q.digest == o.digest
  }

  /** What `apply_relocation` demands before it copies anything. */
  ghost predicate Admissible(w: World, source: Tree, target: Tree, receipt: Option<Receipt>, expected: Facts, capacity: Capacity)
    requires w.Valid()
  {
    && receipt.None? && capacity.total == capacity.plannedTotal
    && Checked(w, source).Some? && Inventory(w, Checked(w, source).value) == expected
    && Checked(w, target).Some? && (forall p | p in target :: p in source && target[p] == source[p])
    && var missing := expected.bytes - Bytes(Checked(w, target).value);
       missing >= 0 && capacity.free - missing >= capacity.floor
  }

  lemma SameMeansAgrees(w: World, source: Tree, target: Tree, objects: seq<Object>, existing: seq<Object>)
    requires w.Valid() && Describes(w, objects, source) && Describes(w, existing, target)
    ensures (forall o <- existing :: o.relative in source && Same(o, objects))
       <==> forall p | p in target :: p in source && target[p] == source[p]
  {
    hide Named;
    if forall o <- existing :: o.relative in source && Same(o, objects) {
      forall p | p in target ensures p in source && target[p] == source[p] {
        var o :| o in existing && o.relative == p;
        var q :| q in objects && q.relative == o.relative && q.size == o.size && q.digest == o.digest;
        assert w.sha(target[p]) == w.sha(source[p]);
      }
    }
    if forall p | p in target :: p in source && target[p] == source[p] {
      forall o <- existing ensures o.relative in source && Same(o, objects) {
        var q :| q in objects && q.relative == o.relative;
        assert source[q.relative] == target[o.relative];
      }
    }
  }

  lemma Described(w: World, source: Tree, objects: seq<Object>, i: nat)
    requires Describes(w, objects, source) && i < |objects|
    ensures objects[i].relative in source && IsSound(w, objects[i], source[objects[i].relative])
  {
    assert objects[i] in objects;
  }

  /** While the target is the merge so far, the next object can be copied. */
  lemma UndisturbedIsClear(w: World, source: Tree, t0: Tree, target: Tree, objects: seq<Object>, i: nat, copied: nat, lives0: nat, lives: nat, salt: string)
    requires Describes(w, objects, source) && i < |objects| && Agrees(t0, source)
    requires Undisturbed(source, t0, target, objects[..i], copied, lives0, lives)
    ensures Clear(source, target, objects[i], salt)
  {
    hide Describes, Agrees, Clear, Merged;
    MergedIsClear(w, source, t0, objects, i, salt);
  }

  lemma MergedIsClear(w: World, source: Tree, t0: Tree, objects: seq<Object>, i: nat, salt: string)
    requires Describes(w, objects, source) && i < |objects| && Agrees(t0, source)
    ensures Clear(source, Merged(source, t0, objects[..i]), objects[i], salt)
  {
    var o := objects[i];
    assert o in objects && IsSound(w, o, source[o.relative]);
    NamedPath(w, o);
    var temp := TempName(o.relative, o.digest, salt);
    TempNameIsTemp(o.relative, o.digest, salt);
    TempIsNoObject(temp);
    forall q <- objects[..i] ensures Named(q.relative).Some? {
      assert q in objects && IsSound(w, q, source[q.relative]);
    }
    assert temp !in t0 && temp !in Relatives(objects[..i]);
  }

  /** The merge so far holds no temporary file. */
  lemma MergeHasNoTemp(w: World, source: Tree, t0: Tree, objects: seq<Object>, i: nat)
    requires Describes(w, objects, source) && i < |objects| && Agrees(t0, source)
    ensures !HasTemp(Merged(source, t0, objects[..i]))
  {
    forall p | p in Merged(source, t0, objects[..i]) ensures !IsTemp(p) {
      if p in t0 {
        if IsTemp(p) {
          TempIsNoObject(p);
        }
      } else {
        SourceHasNoTemp(w, source, objects, p);
      }
    }
  }

  lemma SourceHasNoTemp(w: World, source: Tree, objects: seq<Object>, p: string)
    requires Describes(w, objects, source) && p in source
    ensures !IsTemp(p)
  {
    hide Named;
    var q :| q in objects && q.relative == p;
    assert IsSound(w, q, source[q.relative]);
    NamedPath(w, q);
  }

  /** A loop that stops at a missing object has not copied all that are missing. */
  lemma StillMissing(w: World, source: Tree, t0: Tree, objects: seq<Object>, i: nat)
    requires Describes(w, objects, source) && i < |objects|
    requires objects[i].relative !in Merged(source, t0, objects[..i])
    ensures |Relatives(objects[..i]) - t0.Keys| < |source.Keys - t0.Keys|
  {
    var p := objects[i].relative;
    NotYet(w, source, objects, i);
    RelativesInSource(w, source, objects, i);
    MergedHolds(source, t0, objects[..i], p);
    hide Describes, Merged, Relatives;
    SubsetIsSmaller(Relatives(objects[..i]) - t0.Keys, source.Keys - t0.Keys, p);
  }

  lemma MergedHolds(source: Tree, t0: Tree, objects: seq<Object>, p: string)
    ensures p in t0 ==> p in Merged(source, t0, objects)
  {
  }

  lemma RelativesInSource(w: World, source: Tree, objects: seq<Object>, i: nat)
    requires Describes(w, objects, source) && i < |objects|
    ensures Relatives(objects[..i]) <= source.Keys && objects[i].relative in source
  {
    hide IsSound;
    assert objects[i] in objects;
    forall p <- Relatives(objects[..i]) ensures p in source {
      var q :| q in objects[..i] && q.relative == p;
      assert q in objects;
    }
  }

  /** An undisturbed run dies exactly when its lives do not reach for what is missing, and leaves a
      temporary file exactly when it dies inside a copy. */
  lemma UndisturbedDeath(w: World, source: Tree, t0: Tree, before: Tree, after: Tree, objects: seq<Object>, i: nat, copied: nat, lives0: nat, left: nat)
    requires Describes(w, objects, source) && i < |objects| && Agrees(t0, source)
    requires Undisturbed(source, t0, before, objects[..i], copied, lives0, left)
    requires objects[i].relative !in before && left < 4 && if left > 0 then HasTemp(after) else after == before
    ensures lives0 < 4 * |source.Keys - t0.Keys|
    ensures HasTemp(after) <==> lives0 % 4 != 0
  {
    hide Describes, Agrees, HasTemp, Merged, Relatives;
    MergeHasNoTemp(w, source, t0, objects, i);
    StillMissing(w, source, t0, objects, i);
    LivesLeft(lives0, left, copied);
  }

  lemma UndisturbedEnd(w: World, source: Tree, t0: Tree, target: Tree, objects: seq<Object>, copied: nat, lives0: nat, lives: nat)
    requires Describes(w, objects, source) && Undisturbed(source, t0, target, objects, copied, lives0, lives)
    ensures copied == |source.Keys - t0.Keys| && target == t0 + source && lives0 >= 4 * copied
  {
    AllRelatives(w, source, objects);
    hide Describes, Relatives;
    MergedAll(source, t0, objects);
    assert Relatives(objects) - t0.Keys == source.Keys - t0.Keys;
  }

  lemma MergedAll(source: Tree, t0: Tree, objects: seq<Object>)
    requires Relatives(objects) == source.Keys
    ensures Merged(source, t0, objects) == t0 + source
  {
    hide Relatives;
    var merged := Merged(source, t0, objects);
    assert merged.Keys == (t0 + source).Keys;
    assert forall p | p in merged :: merged[p] == (t0 + source)[p];
  }

  lemma AllRelatives(w: World, source: Tree, objects: seq<Object>)
    requires Describes(w, objects, source)
    ensures Relatives(objects) == source.Keys
  {
  }

  lemma LivesLeft(lives: nat, left: nat, copied: nat)
    requires lives == left + 4 * copied
    ensures left < 4 ==> lives % 4 == left && lives < 4 * (copied + 1)
  {
  }

  lemma SubsetIsSmaller(a: set<string>, b: set<string>, p: string)
    requires a <= b && p in b && p !in a
    ensures |a| < |b|
  {
    assert b == a + (b - a);
    assert |b| == |a| + |b - a| && b - a != {};
  }

  /** One object more is in place. */
  lemma OneMoreDone(w: World, source: Tree, before: Tree, after: Tree, objects: seq<Object>, i: nat)
    requires Describes(w, objects, source) && i < |objects| && Done(source, before, objects[..i])
    requires Preserves(source, before, after)
    requires objects[i].relative in after && objects[i].relative in source && after[objects[i].relative] == source[objects[i].relative]
    ensures Done(source, after, objects[..i + 1])
  {
    DoneGrows(w, source, before, after, objects, i);
  }

  lemma OneMoreUndisturbed(w: World, source: Tree, t0: Tree, before: Tree, after: Tree, objects: seq<Object>, i: nat, copied: nat, lives0: nat, left: nat, lives: nat)
    requires Describes(w, objects, source) && i < |objects| && objects[i].relative in source
    requires Undisturbed(source, t0, before, objects[..i], copied, lives0, left)
    requires after == before[objects[i].relative := source[objects[i].relative]]
    requires left == lives + if objects[i].relative in before then 0 else 4
    ensures Undisturbed(source, t0, after, objects[..i + 1], copied + if objects[i].relative in before then 0 else 1, lives0, lives)
  {
    hide Describes, Merged, Relatives;
    assert objects[..i + 1] == objects[..i] + [objects[i]];
    RelativesAppend(objects[..i], objects[i]);
    NotYet(w, source, objects, i);
    MergedGrows(source, t0, objects, i);
    CountGrows(Relatives(objects[..i]), objects[i].relative, t0.Keys);
  }

  lemma NotYet(w: World, source: Tree, objects: seq<Object>, i: nat)
    requires Describes(w, objects, source) && i < |objects|
    ensures objects[i].relative !in Relatives(objects[..i])
  {
  }

  lemma DoneGrows(w: World, source: Tree, before: Tree, after: Tree, objects: seq<Object>, i: nat)
    requires Describes(w, objects, source) && i < |objects| && Done(source, before, objects[..i])
    requires Preserves(source, before, after)
    requires objects[i].relative in after && objects[i].relative in source && after[objects[i].relative] == source[objects[i].relative]
    ensures Done(source, after, objects[..i + 1])
  {
    hide Named;
    forall q <- objects[..i + 1] ensures q.relative in source && q.relative in after && after[q.relative] == source[q.relative] {
      if q != objects[i] {
        assert q in objects[..i] && q in objects && IsSound(w, q, source[q.relative]);
        NamedPath(w, q);
      }
    }
  }

  lemma MergedGrows(source: Tree, t0: Tree, objects: seq<Object>, i: nat)
    requires i < |objects| && objects[i].relative in source && objects[i].relative !in Relatives(objects[..i])
    requires Relatives(objects[..i + 1]) == Relatives(objects[..i]) + {objects[i].relative}
    ensures var p, merged := objects[i].relative, Merged(source, t0, objects[..i]);
            merged[p := source[p]] == Merged(source, t0, objects[..i + 1]) && (p in merged <==> p in t0)
  {
    hide Relatives;
  }

  lemma CountGrows(done: set<string>, p: string, before: set<string>)
    requires p !in done
    ensures |(done + {p}) - before| == |done - before| + if p in before then 0 else 1
  {
    assert p in before ==> (done + {p}) - before == done - before;
    assert p !in before ==> (done + {p}) - before == (done - before) + {p};
  }

  lemma AllDone(w: World, source: Tree, target: Tree, objects: seq<Object>)
    requires Describes(w, objects, source) && Done(source, target, objects)
    ensures forall p | p in source :: p in target && target[p] == source[p]
  {
    hide IsSound;
  }

  // ---------------------------------------------------------------- what the demands give

  lemma AdmittedSource(w: World, source: Tree, target: Tree, receipt: Option<Receipt>, expected: Facts, capacity: Capacity)
    requires w.Valid() && Admissible(w, source, target, receipt, expected, capacity)
    ensures Checked(w, source).Some? && Inventory(w, Checked(w, source).value) == expected
    ensures Describes(w, Checked(w, source).value, source) && |Checked(w, source).value| == |source|
    ensures Agrees(target, source) && forall p | p in target :: p in source && target[p] == source[p]
  {
    hide Named;
    CheckedDescribes(w, source);
    CheckedDescribes(w, target);
    OneObjectPerFile(w, Checked(w, source).value, source);
  }

  lemma OneObjectPerFile(w: World, objects: seq<Object>, tree: Tree)
    requires Describes(w, objects, tree)
    ensures |objects| == |tree|
  {
    hide Named, IsSound;
    var names := NamesOf(objects);
    DistinctCount(names);
    assert forall i | 0 <= i < |objects| :: objects[i] in objects;
    forall p ensures p in names <==> p in tree {
      if p in tree {
        var o :| o in objects && o.relative == p;
        var i :| 0 <= i < |objects| && objects[i] == o;
        assert names[i] == p;
      }
    }
    assert Members(names) == tree.Keys;
  }

  function NamesOf(objects: seq<Object>): (names: seq<string>)
    ensures |names| == |objects| && forall i | 0 <= i < |objects| :: names[i] == objects[i].relative
  {
    seq(|objects|, i requires 0 <= i < |objects| => objects[i].relative)
  }

  lemma MergedIsSource(source: Tree, before: Tree, target: Tree)
    requires target == before + source && forall p | p in before :: p in source && before[p] == source[p]
    ensures target == source
  {
  }

  /** A run with a receipt on file is not admitted. */
  lemma OpenReceipt(w: World, source: Tree, target: Tree, receipt: Option<Receipt>, expected: Facts, capacity: Capacity)
    requires w.Valid()
    ensures receipt.Some? ==> !Admissible(w, source, target, receipt, expected, capacity)
  {
  }

  // ---------------------------------------------------------------- leftovers

  /** A temporary file left behind by a dead run makes every later run refuse. */
  lemma LeftoverRefuses(w: World, source: Tree, target: Tree, receipt: Option<Receipt>, expected: Facts, capacity: Capacity, temp: string)
    requires w.Valid() && temp in target && IsTemp(temp)
    ensures !Admissible(w, source, target, receipt, expected, capacity)
  {
    CheckedDescribes(w, target);
    TempIsNoObject(temp);
  }

  /** There is room on the disk for what the target still misses. */
  ghost predicate HasRoom(w: World, target: Tree, expected: Facts, capacity: Capacity)
    requires w.Valid()
  {
    && capacity.total == capacity.plannedTotal && Checked(w, target).Some?
    && var missing := expected.bytes - Bytes(Checked(w, target).value);
       missing >= 0 && capacity.free - missing >= capacity.floor
  }

  /** After a run from an admitted start that wrote no receipt, the next one is admitted exactly when no
      temporary file is left and there is room. */
  lemma AfterDeath(w: World, source: Tree, before: Tree, left: Tree, receipt: Option<Receipt>, expected: Facts, capacity: Capacity, again: Capacity)
    requires w.Valid() && Admissible(w, source, before, receipt, expected, capacity) && Preserves(source, before, left)
    ensures Admissible(w, source, left, None, expected, again) <==> !HasTemp(left) && HasRoom(w, left, expected, again)
  {
    hide Describes, Checked, Index, Named;
    if HasTemp(left) {
      var temp :| temp in left && IsTemp(temp);
      LeftoverRefuses(w, source, left, None, expected, again, temp);
    } else {
      forall p | p in left ensures p in source && left[p] == source[p] {
        assert !IsTemp(p);
      }
      if again.total == again.plannedTotal {
        PartialCopyIsAdmitted(w, source, left, expected, again);
      }
    }
  }

  /** What a partial copy still needs is exactly what is missing: a target of true copies without
      leftovers is admitted whenever the receipt is open and the disk has room. */
  lemma PartialCopyIsAdmitted(w: World, source: Tree, target: Tree, expected: Facts, capacity: Capacity)
    requires w.Valid() && Checked(w, source).Some? && Inventory(w, Checked(w, source).value) == expected
    requires forall p | p in target :: p in source && target[p] == source[p]
    requires capacity.total == capacity.plannedTotal
    ensures Checked(w, target).Some?
    ensures Admissible(w, source, target, None, expected, capacity)
       <==> var missing := expected.bytes - Bytes(Checked(w, target).value); missing >= 0 && capacity.free - missing >= capacity.floor
  {
    CheckedDescribes(w, source);
    CheckedDescribes(w, target);
  }

  // ---------------------------------------------------------------- one object, one death

  const ZEROS: string := seq(64, _ => '0')

  const PICTURE: string := ObjectPath(ZEROS, "jpg")

  ghost function ListOf(names: set<string>): seq<string> {
    if names == {} then [] else var name :| name in names; [name] + ListOf(names - {name})
  }

  lemma {:induction false} ListOfLists(names: set<string>)
    ensures forall name :: name in ListOf(names) <==> name in names
    ensures forall i, j | 0 <= i < j < |ListOf(names)| :: ListOf(names)[i] != ListOf(names)[j]
  {
    if names != {} {
      var list := ListOf(names);
      ListOfLists(names - {list[0]});
      assert list[1..] == ListOf(names - {list[0]});
      assert list == [list[0]] + list[1..];
      assert forall j | 0 < j < |list| :: list[j] == list[1..][j - 1] && list[1..][j - 1] in list[1..];
    }
  }

  /** A hash that names the one picture's content. */
  ghost function SampleWorld(): World {
    World((x: string) => if x == "a" then ZEROS else "x" + x, (tree: Tree) => ListOf(tree.Keys))
  }

  lemma SampleIsValid()
    ensures SampleWorld().Valid()
  {
    var w := SampleWorld();
    forall x, y | w.sha(x) == w.sha(y) ensures x == y {
      assert ZEROS[0] == '0' && ("x" + x)[0] == 'x' && ("x" + y)[0] == 'x';
      if x != "a" && y != "a" {
        assert ("x" + x)[1..] == x && ("x" + y)[1..] == y;
      }
    }
    forall tree: Tree ensures Lists(w.listing(tree), tree) {
      ListOfLists(tree.Keys);
    }
  }

  /** A concrete start: one picture to copy into an empty target, one file operation to live. A run
      from here dies with its temporary file on disk, as `DieAndRetry` says. */
  lemma SampleCanDie() returns (expected: Facts)
    ensures var w, source, target, capacity := SampleWorld(), map[PICTURE := "a"], map[], Capacity(0, 0, 9, 9, 0);
            && w.Valid() && Admissible(w, source, target, None, expected, capacity)
            && 1 < 4 * |source.Keys - target.Keys| && 1 % 4 != 0
  {
    var w, source, target: Tree := SampleWorld(), map[PICTURE := "a"], map[];
    SampleIsValid();
    ObjectNames("", ZEROS, "jpg");
    assert Named(PICTURE) == Some(ZEROS);
    CheckedDescribes(w, source);
    CheckedDescribes(w, target);
    expected := Inventory(w, Checked(w, source).value);
    var objects := Checked(w, source).value;
    OneObjectPerFile(w, objects, source);
    OneObjectPerFile(w, Checked(w, target).value, target);
    assert objects[0] in objects && objects[0].relative == PICTURE && objects[0].size == 1;
    assert objects[1..] == [];
    assert Bytes(objects) == 1 && Checked(w, target).value == [];
  }
}
