/** The background tasks as programs over the manifest, the local disk and the object store.
    Each one performs, in program order, steps of the storage protocol for its own task: the
    ghost `sys` takes the same steps, and the real state is its store at every point where
    another task may intervene. */
module Node {
  import opened Base
  import opened Dedup
  import opened Catalog
  import opened Compaction
  import opened Lifecycle

  lemma RunSnoc(s: Sys, schedule: seq<Action>, a: Action)
    ensures Run(s, schedule + [a]) == Apply(Run(s, schedule), a)
  {
    assert (schedule + [a])[..|schedule|] == schedule;
  }

  // What single steps do, for use in the programs below.

  lemma FlushSteps(s: Sys, t: nat, m: Meta, events: File)
    requires t !in s.tasks && events != [] && m.service == events[0].service && FreshFile(s.store, m, events)
    ensures Apply(s, FlushWrite(t, m, events)) == Goto(s, t, WriteLocal(s.store, m, events), Flushing(m, events))
  {
  }

  lemma InsertStep(s: Sys, t: nat, m: Meta, events: File)
    requires t in s.tasks && s.tasks[t] == Flushing(m, events)
    ensures Apply(s, FlushInsert(t)) == End(s, t, GetOr(InsertFile(s.store, m, events), s.store))
  {
  }

  lemma InsertIs(st: Store, m: Meta, events: File)
    ensures InsertFile(st, m, events).Some? <==> Insert(st.table, m).Some?
    ensures InsertFile(st, m, events).Some? ==>
              var st' := InsertFile(st, m, events).value;
              && Insert(st.table, m) == Some(st'.table)
              && st' == st.(table := st'.table, origin := st'.origin)
  {
  }

  lemma SwapIs(st: Store, ids: set<int>, metas: seq<Meta>, chunks: seq<File>, now: int)
    requires |metas| == |chunks|
    ensures SwapFiles(st, ids, metas, chunks, now).Some? <==> Swap(st.table, ids, metas, now).Some?
    ensures SwapFiles(st, ids, metas, chunks, now).Some? ==>
              var st' := SwapFiles(st, ids, metas, chunks, now).value;
              && Swap(st.table, ids, metas, now) == Some(st'.table)
              && st' == st.(table := st'.table, origin := st'.origin)
  {
  }

  lemma ListStep(s: Sys, t: nat, service: string, bucket: string, files: seq<Listed>)
    requires t !in s.tasks && |files| >= 2 && ListingOf(s.store, files, r => InBucket(r, service, bucket))
    ensures Apply(s, CompactList(t, service, bucket, files)) ==
            Goto(s, t, s.store, Compacting(Bucket(service, bucket), files, [], [], []))
  {
  }

  lemma SwapStep(s: Sys, t: nat, now: int)
    requires t in s.tasks && ReadyToSwap(s.tasks[t])
    ensures var Compacting(b, files, contents, metas, chunks) := s.tasks[t];
            Apply(s, CompactSwap(t, now)) ==
            GotoIf(s, t, SwapFiles(s.store, Ids(files), metas, chunks, now), Unlinking(files))
  {
  }

  lemma AbortStep(s: Sys, t: nat)
    requires t in s.tasks
    ensures Apply(s, Abort(t)) == End(s, t, s.store)
  {
  }

  lemma TierSteps(s: Sys, t: nat, f: Listed, bytes: File)
    requires t in s.tasks
    ensures s.tasks[t] == TierListed(f) && ReadPath(s.store, f.path) == Some(bytes) ==>
              Apply(s, TierReadFile(t)) == Goto(s, t, s.store, TierRead(f, bytes))
    ensures s.tasks[t] == TierRead(f, bytes) ==>
              Apply(s, TierUpload(t)) == Goto(s, t, Upload(s.store, f, bytes), TierUploaded(f))
    ensures s.tasks[t] == TierUploaded(f) ==>
              Apply(s, TierSetCold(t)) == GotoIf(s, t, RecordCold(s.store, f), TierRecorded(f))
    ensures s.tasks[t] == TierRecorded(f) ==>
              Apply(s, TierUnlink(t)) == End(s, t, RemoveLocal(s.store, f.path))
  {
  }

  lemma RecordIs(st: Store, f: Listed)
    ensures RecordCold(st, f).Some? <==> SetCold(st.table, f.id, ColdUri(f.path)).Some?
    ensures RecordCold(st, f).Some? ==>
              var st' := RecordCold(st, f).value;
              SetCold(st.table, f.id, ColdUri(f.path)) == Some(st'.table) && st' == st.(table := st'.table)
  {
  }

  lemma SweepSteps(s: Sys, t: nat, f: Listed, tier: Tier, ok: bool)
    requires t in s.tasks
    ensures s.tasks[t] == Expiring(f, tier) ==>
              Apply(s, SweepUnlink(t)) == Goto(s, t, RemoveExpired(s.store, f, tier), Expired(f))
    ensures s.tasks[t] == Expired(f) ==> Apply(s, SweepDelete(t)) == End(s, t, DeleteRow(s.store, f.id))
    ensures s.tasks[t] == Discarding(f) ==>
              Apply(s, DiscardUnlink(t, ok)) ==
              Goto(s, t, if ok then RemoveLocal(s.store, f.path) else s.store, Discarded(f))
    ensures s.tasks[t] == Discarded(f) ==> Apply(s, DiscardDelete(t)) == End(s, t, DeleteRow(s.store, f.id))
  {
  }

  lemma ReadStep(s: Sys, t: nat, b: Bucket, files: seq<Listed>, contents: seq<File>, bytes: File)
    requires t in s.tasks && s.tasks[t] == Compacting(b, files, contents, [], []) && |contents| < |files|
    requires ReadPath(s.store, files[|contents|].path) == Some(bytes)
    ensures Apply(s, CompactRead(t)) == Goto(s, t, s.store, Compacting(b, files, contents + [bytes], [], []))
  {
  }

  lemma IdsOfFiles(files: seq<Listed>, ids: seq<int>)
    requires |ids| == |files| && forall i :: 0 <= i < |files| ==> ids[i] == files[i].id
    ensures IdSet(ids) == Ids(files)
  {
    forall f | f in files ensures f.id in ids {
      var i :| 0 <= i < |files| && files[i] == f;
      assert ids[i] == f.id;
    }
  }

  lemma OneRange(events: File, m: Meta, lo: i64, hi: i64)
    requires events != [] && MetaSound(m, events) && IsRange(events, Timestamp, lo, hi)
    ensures lo == m.minTs && hi == m.maxTs
  {
    assert Attains(events, Timestamp, m.minTs) && Attains(events, Timestamp, m.maxTs);
  }

  lemma OneBatch(b: RecordBatch)
    ensures Rows([b]) == b.rows
  {
  }

  lemma RowsSnoc(chunks: seq<Chunk>, i: nat, written: seq<File>)
    requires i < |chunks| && Flatten(written) == Rows(Flatten(chunks[..i]))
    ensures Flatten(written + [Rows(chunks[i])]) == Rows(Flatten(chunks[..i + 1]))
  {
    assert chunks[..i + 1] == chunks[..i] + [chunks[i]];
    FlattenSnoc(chunks[..i], chunks[i]);
    RowsConcat(Flatten(chunks[..i]), chunks[i]);
    FlattenSnoc(written, Rows(chunks[i]));
  }

  lemma NewNameIsFresh(st: Store, m: Meta, rows: File, next: nat)
    requires (forall u :: u in st.uuids ==> u < next) && m.path.Local? && m.path.uuid == next
    requires m.service == m.path.service && m.bucket == m.path.bucket && MetaSound(m, rows)
    ensures FreshFile(st, m, rows)
  {
  }

  lemma SoundSnoc(metas: seq<Meta>, files: seq<File>, m: Meta, rows: File)
    requires AllSound(metas, files) && MetaSound(m, rows)
    ensures AllSound(metas + [m], files + [rows])
  {
    hide MetaSound;
  }

  lemma NoFilesSound(metas: seq<Meta>, files: seq<File>)
    requires metas == [] && files == []
    ensures AllSound(metas, files) && Flatten(files) == []
  {
  }

  lemma RowsOfNothing(chunks: seq<Chunk>)
    requires chunks == []
    ensures Rows(Flatten(chunks)) == []
  {
  }

  class Node {
    const manifest: Manifest
    var local: map<Path, File>
    var cold: map<Path, File>
    var nextUuid: nat
    ghost var sys: Sys
    ghost var schedule: seq<Action>

    /** The real state is the store of the protocol, and the protocol has come here from start
        by the steps in schedule. */
    ghost predicate Follows(start: Sys)
      reads this, manifest
    {
      && sys.store.table == manifest.Contents() && sys.store.local == local && sys.store.cold == cold
      && (forall u :: u in sys.store.uuids ==> u < nextUuid)
      && (forall p :: p in local ==> p.uuid < nextUuid)
      && sys == Run(start, schedule)
    }

    constructor ()
      ensures Follows(INIT) && fresh(manifest)
    {
      manifest := new Manifest();
      local, cold, nextUuid := map[], map[], 0;
      sys, schedule := INIT, [];
    }

    ghost method Take(a: Action)
      modifies this`sys, this`schedule
      ensures sys == Apply(old(sys), a) && schedule == old(schedule) + [a]
      ensures forall start :: old(sys) == Run(start, old(schedule)) ==> sys == Run(start, schedule)
    {
      sys, schedule := Apply(sys, a), schedule + [a];
      forall start | old(sys) == Run(start, old(schedule)) ensures sys == Run(start, schedule) {
        RunSnoc(start, old(schedule), a);
      }
    }

    /** What flush_events registers for a batch. */
    method FlushMeta(events: File, hour: int -> string, sizeBytes: int) returns (m: Meta)
      requires events != []
      ensures MetaSound(m, events) && m.sizeBytes == sizeBytes
      ensures m.service == events[0].service && m.bucket == hour(m.minTs)
      ensures m.path == Local(m.service, m.bucket, nextUuid)
    {
      hide MetaSound, Rows;
      var batch := [RecordBatch(events, 0)];
      OneBatch(batch[0]);
      var minTs, maxTs := ColMinMax(batch, Timestamp);
      m := WriteChunk(batch, Local(events[0].service, hour(minTs), nextUuid), sizeBytes);
      OneRange(events, m, minTs, maxTs);
    }

    /** flush_events: compute the metadata, write the file, then register it, under the service of
        the first event and the hour of the earliest. */
    method FlushEvents(
      events: File, hour: int -> string, writeOk: bool, sizeBytes: int, ghost t: nat, ghost start: Sys)
      returns (ok: bool, m: Meta)
      requires Follows(start) && events != [] && t !in sys.tasks
      modifies this, manifest
      ensures Follows(start) && sys.tasks == old(sys.tasks) && MetaSound(m, events) && m.sizeBytes == sizeBytes
      ensures m.service == events[0].service && m.bucket == hour(m.minTs)
      ensures m.path == Local(m.service, m.bucket, old(nextUuid))
      ensures schedule == old(schedule) + (if writeOk then [FlushWrite(t, m, events), FlushInsert(t)] else [])
      ensures ok <==> writeOk && Insert(old(manifest.Contents()), m).Some?
      ensures ok ==> Insert(old(manifest.Contents()), m) == Some(manifest.Contents())
      ensures writeOk ==> local == old(local)[m.path := events]
      ensures !writeOk ==> manifest.Contents() == old(manifest.Contents()) && local == old(local)
    {
      hide Enabled, Effect, Apply, Run, MetaSound, InsertFile, Insert;
      m := FlushMeta(events, hour, sizeBytes);
      if !writeOk {
        return false, m;
      }
      FlushSteps(sys, t, m, events);
      local, nextUuid := local[m.path := events], nextUuid + 1;
      Take(FlushWrite(t, m, events));
      InsertStep(sys, t, m, events);
      var id := manifest.CommitFlush(m);
      InsertIs(sys.store, m, events);
      Take(FlushInsert(t));
      assert sys.tasks == old(sys.tasks);
      ok := id.Some?;
    }

    method UploadCopy(f: Listed, readOk: bool, putOk: bool, ghost t: nat, ghost start: Sys) returns (ok: bool)
      requires Follows(start) && t in sys.tasks && sys.tasks[t] == TierListed(f) && f.path.Local?
      modifies this`cold, this`sys, this`schedule
      ensures Follows(start) && sys.tasks == (if ok then old(sys.tasks)[t := TierUploaded(f)] else old(sys.tasks) - {t})
      ensures ok <==> readOk && putOk && f.path in local
      ensures ok ==> schedule == old(schedule) + [TierReadFile(t), TierUpload(t)]
      ensures local == old(local) && nextUuid == old(nextUuid)
      ensures cold == (if ok then old(cold)[ColdUri(f.path) := local[f.path]] else old(cold))
    {
      hide Enabled, Effect, Apply, Run;
      if !readOk || f.path !in local {
        AbortStep(sys, t);
        Take(Abort(t));
        return false;
      }
      var bytes := local[f.path];
      TierSteps(sys, t, f, bytes);
      Take(TierReadFile(t));
      assert sys.tasks == old(sys.tasks)[t := TierRead(f, bytes)];
      if !putOk {
        AbortStep(sys, t);
        Take(Abort(t));
        return false;
      }
      cold := cold[ColdUri(f.path) := bytes];
      TierSteps(sys, t, f, bytes);
      Take(TierUpload(t));
      ok := true;
    }

    method RecordAndUnlink(f: Listed, unlinkOk: bool, ghost t: nat, ghost start: Sys) returns (ok: bool)
      requires Follows(start) && t in sys.tasks && sys.tasks[t] == TierUploaded(f)
      modifies this`local, this`sys, this`schedule, manifest
      ensures Follows(start) && sys.tasks == old(sys.tasks) - {t}
      ensures var recorded := SetCold(old(manifest.Contents()), f.id, ColdUri(f.path));
              && (ok <==> recorded.Some? && unlinkOk)
              && manifest.Contents() == (if recorded.Some? then recorded.value else old(manifest.Contents()))
      ensures ok ==> schedule == old(schedule) + [TierSetCold(t), TierUnlink(t)]
      ensures cold == old(cold)
      ensures local == (if ok then old(local) - {f.path} else old(local))
    {
      hide Enabled, Effect, Apply, Run, RecordCold;
      TierSteps(sys, t, f, []);
      RecordIs(sys.store, f);
      var recorded := manifest.PromoteToCold(f.id, ColdUri(f.path));
      Take(TierSetCold(t));
      if !recorded {
        return false;
      }
      assert sys.tasks == old(sys.tasks)[t := TierRecorded(f)];
      if !unlinkOk {
        AbortStep(sys, t);
        Take(Abort(t));
        return false;
      }
      local := local - {f.path};
      TierSteps(sys, t, f, []);
      Take(TierUnlink(t));
      ok := true;
    }

    /** tier_file: upload, then record, then delete the local copy; stop at the first failure. */
    method TierFile(f: Listed, readOk: bool, putOk: bool, unlinkOk: bool, ghost t: nat, ghost start: Sys)
      returns (ok: bool)
      requires Follows(start) && t in sys.tasks && sys.tasks[t] == TierListed(f) && f.path.Local?
      modifies this, manifest
      ensures Follows(start) && sys.tasks == old(sys.tasks) - {t}
      ensures ok ==> schedule == old(schedule) + [TierReadFile(t), TierUpload(t), TierSetCold(t), TierUnlink(t)]
      ensures var uploaded := readOk && putOk && f.path in old(local);
              var recorded := SetCold(old(manifest.Contents()), f.id, ColdUri(f.path));
              && (ok <==> uploaded && recorded.Some? && unlinkOk)
              && cold == (if uploaded then old(cold)[ColdUri(f.path) := old(local)[f.path]] else old(cold))
              && manifest.Contents() ==
                 (if uploaded && recorded.Some? then recorded.value else old(manifest.Contents()))
      ensures local == (if ok then old(local) - {f.path} else old(local))
    {
      ok := UploadCopy(f, readOk, putOk, t, start);
      if ok {
        ok := RecordAndUnlink(f, unlinkOk, t, start);
      }
    }

    /** One file of sweep_expired: the row goes only if the file was deleted or already missing. */
    method SweepFile(f: Listed, tier: Tier, deleteOk: bool, ghost t: nat, ghost start: Sys)
      requires Follows(start) && t in sys.tasks && sys.tasks[t] == Expiring(f, tier)
      modifies this, manifest
      ensures Follows(start) && sys.tasks == old(sys.tasks) - {t}
      ensures schedule == old(schedule) + (if deleteOk then [SweepUnlink(t), SweepDelete(t)] else [Abort(t)])
      ensures manifest.Contents() ==
          (if deleteOk then Delete(old(manifest.Contents()), f.id) else old(manifest.Contents()))
      ensures local == (if deleteOk && tier == Hot then old(local) - {f.path} else old(local))
      ensures cold == (if deleteOk && tier == Cold then old(cold) - {f.path} else old(cold))
    {
      hide Enabled, Effect, Apply, Run;
      if !deleteOk {
        AbortStep(sys, t);
        Take(Abort(t));
        return;
      }
      if tier == Cold {
        cold := cold - {f.path};
      } else {
        local := local - {f.path};
      }
      SweepSteps(sys, t, f, tier, true);
      Take(SweepUnlink(t));
      assert sys.tasks == old(sys.tasks)[t := Expired(f)];
      manifest.DeleteFile(f.id);
      SweepSteps(sys, t, f, tier, true);
      Take(SweepDelete(t));
      assert sys.tasks == old(sys.tasks) - {t};
    }

    /** sweep_expired over its listing: file i belongs to task ts[i]. */
    method SweepExpired(files: seq<(Listed, Tier)>, deleteOk: seq<bool>, ghost ts: seq<nat>, ghost start: Sys)
      requires Follows(start) && |ts| == |deleteOk| == |files|
      requires forall i, j :: 0 <= i < j < |ts| ==> ts[i] != ts[j]
      requires forall i :: 0 <= i < |ts| ==> ts[i] in sys.tasks && sys.tasks[ts[i]] == Expiring(files[i].0, files[i].1)
      modifies this, manifest
      ensures Follows(start) && old(schedule) <= schedule
      ensures forall i :: 0 <= i < |ts| ==> ts[i] !in sys.tasks
      ensures forall u :: u !in ts ==> (u in sys.tasks <==> u in old(sys.tasks))
      ensures manifest.Contents() ==
              old(manifest.Contents()).(rows := old(manifest.rows) - SweptIds(files, deleteOk, |files|))
      ensures local == old(local) - SweptPaths(files, deleteOk, Hot, |files|)
      ensures cold == old(cold) - SweptPaths(files, deleteOk, Cold, |files|)
    {
      hide Enabled, Effect, Apply, Run, Delete, SweptIds, SweptPaths;
      SweptNone(manifest.Contents(), files, deleteOk);
      SweptNoFile(local, files, deleteOk, Hot);
      SweptNoFile(cold, files, deleteOk, Cold);
      for i := 0 to |files|
        invariant Follows(start) && old(schedule) <= schedule
        invariant sys.tasks == old(sys.tasks) - (set u | u in ts[..i])
        invariant manifest.Contents() ==
                  old(manifest.Contents()).(rows := old(manifest.rows) - SweptIds(files, deleteOk, i))
        invariant local == old(local) - SweptPaths(files, deleteOk, Hot, i)
        invariant cold == old(cold) - SweptPaths(files, deleteOk, Cold, i)
      {
        assert ts[i] in old(sys.tasks) && ts[i] !in ts[..i];
        SweepFile(files[i].0, files[i].1, deleteOk[i], ts[i], start);
        SweptMore(old(manifest.Contents()), files, deleteOk, i);
        SweptFrom(old(local), files, deleteOk, Hot, i);
        SweptFrom(old(cold), files, deleteOk, Cold, i);
        assert ts[..i + 1] == ts[..i] + [ts[i]];
      }
      assert ts[..|ts|] == ts;
    }

    /** One file of sweep_superseded: the row goes even if the file could not be deleted. */
    method DiscardFile(f: Listed, deleteOk: bool, ghost t: nat, ghost start: Sys)
      requires Follows(start) && t in sys.tasks && sys.tasks[t] == Discarding(f)
      modifies this, manifest
      ensures Follows(start) && sys.tasks == old(sys.tasks) - {t}
      ensures schedule == old(schedule) + [DiscardUnlink(t, deleteOk), DiscardDelete(t)]
      ensures manifest.Contents() == Delete(old(manifest.Contents()), f.id)
      ensures local == (if deleteOk then old(local) - {f.path} else old(local)) && cold == old(cold)
    {
      hide Enabled, Effect, Apply, Run;
      if deleteOk {
        local := local - {f.path};
      }
      SweepSteps(sys, t, f, Hot, deleteOk);
      Take(DiscardUnlink(t, deleteOk));
      assert sys.tasks == old(sys.tasks)[t := Discarded(f)];
      manifest.DeleteFile(f.id);
      SweepSteps(sys, t, f, Hot, deleteOk);
      Take(DiscardDelete(t));
      assert sys.tasks == old(sys.tasks) - {t};
    }

    /** Reads every listed file; gives up at the first that is missing. */
    method ReadAll(files: seq<Listed>, ghost b: Bucket, ghost t: nat, ghost start: Sys)
      returns (contents: seq<File>, ok: bool)
      requires Follows(start) && t in sys.tasks && sys.tasks[t] == Compacting(b, files, [], [], [])
      requires forall i :: 0 <= i < |files| ==> files[i].path.Local?
      modifies this`sys, this`schedule
      ensures Follows(start) && sys.store == old(sys.store) && old(schedule) <= schedule
      ensures ok <==> forall i :: 0 <= i < |files| ==> files[i].path in local
      ensures ok ==> sys.tasks == old(sys.tasks)[t := Compacting(b, files, contents, [], [])]
      ensures ok ==> |contents| == |files| && forall i :: 0 <= i < |files| ==> contents[i] == local[files[i].path]
      ensures !ok ==> sys.tasks == old(sys.tasks) - {t}
    {
      hide Enabled, Effect, Apply, Run;
      contents := [];
      for i := 0 to |files|
        invariant Follows(start) && sys.store == old(sys.store) && old(schedule) <= schedule && |contents| == i
        invariant sys.tasks == old(sys.tasks)[t := Compacting(b, files, contents, [], [])]
        invariant forall k :: 0 <= k < i ==> files[k].path in local && contents[k] == local[files[k].path]
      {
        if files[i].path !in local {
          AbortStep(sys, t);
          Take(Abort(t));
          return contents, false;
        }
        ReadStep(sys, t, b, files, contents, local[files[i].path]);
        contents := contents + [local[files[i].path]];
        Take(CompactRead(t));
      }
      ok := true;
    }

    /** Writes each chunk to a fresh file. */
    method WriteAll(
      chunks: seq<Chunk>, service: string, bucket: string, sizeOf: Chunk -> int,
      ghost t: nat, ghost files: seq<Listed>, ghost contents: seq<File>, ghost start: Sys)
      returns (metas: seq<Meta>, ghost written: seq<File>)
      requires Follows(start) && t in sys.tasks
      requires sys.tasks[t] == Compacting(Bucket(service, bucket), files, contents, [], [])
      requires |contents| == |files|
      modifies this`local, this`nextUuid, this`sys, this`schedule
      ensures Follows(start) && sys.store.table == old(sys.store.table) && old(schedule) <= schedule
      ensures sys.tasks == old(sys.tasks)[t := Compacting(Bucket(service, bucket), files, contents, metas, written)]
      ensures |metas| == |written| && AllSound(metas, written) && Flatten(written) == Rows(Flatten(chunks))
      ensures Stored(local, metas, written) && KeepsFiles(old(local), local, {})
      ensures forall i :: 0 <= i < |metas| ==> metas[i].path.uuid >= old(nextUuid)
      ensures forall i :: 0 <= i < |metas| ==> metas[i].service == service && metas[i].bucket == bucket
    {
      hide Enabled, Effect, Apply, MetaSound, Rows, Run, FreshFile, AllSound, Flatten, Stored, KeepsFiles;
      KeepsAll(local);
      NoneStored(local);
      metas, written := [], [];
      RowsOfNothing(chunks[..0]);
      NoFilesSound(metas, written);
      for i := 0 to |chunks|
        invariant Follows(start) && sys.store.table == old(sys.store.table) && old(schedule) <= schedule
        invariant sys.tasks == old(sys.tasks)[t := Compacting(Bucket(service, bucket), files, contents, metas, written)]
        invariant |metas| == |written| && AllSound(metas, written) && Flatten(written) == Rows(Flatten(chunks[..i]))
        invariant Stored(local, metas, written) && KeepsFiles(old(local), local, {})
        invariant old(nextUuid) <= nextUuid
        invariant forall k :: 0 <= k < |metas| ==> old(nextUuid) <= metas[k].path.uuid < nextUuid
        invariant forall k :: 0 <= k < |metas| ==> metas[k].service == service && metas[k].bucket == bucket
      {
        var m := WriteChunk(chunks[i], Local(service, bucket, nextUuid), sizeOf(chunks[i]));
        ghost var rows := Rows(chunks[i]);
        NewNameIsFresh(sys.store, m, rows, nextUuid);
        ghost var before := local;
        StoreChunk(m, chunks[i], Bucket(service, bucket), t, files, contents, metas, written, start);
        StoredSnoc(old(local), before, metas, written, m, rows);
        RowsSnoc(chunks, i, written);
        SoundSnoc(metas, written, m, rows);
        metas, written := metas + [m], written + [rows];
      }
      assert chunks[..|chunks|] == chunks;
    }

    method StoreChunk(
      m: Meta, chunk: Chunk, ghost b: Bucket, ghost t: nat, ghost files: seq<Listed>, ghost contents: seq<File>,
      ghost metas: seq<Meta>, ghost written: seq<File>, ghost start: Sys)
      requires Follows(start) && t in sys.tasks && sys.tasks[t] == Compacting(b, files, contents, metas, written)
      requires |contents| == |files| && |metas| == |written|
      requires Filed(m, b) && FreshFile(sys.store, m, Rows(chunk)) && m.path.uuid == nextUuid
      modifies this`local, this`nextUuid, this`sys, this`schedule
      ensures Follows(start) && sys.store.table == old(sys.store.table)
      ensures sys.tasks == old(sys.tasks)[t := Compacting(b, files, contents, metas + [m], written + [Rows(chunk)])]
      ensures schedule == old(schedule) + [CompactWrite(t, m, Rows(chunk))]
      ensures local == old(local)[m.path := Rows(chunk)] && nextUuid == old(nextUuid) + 1
    {
      hide ListingOf, FreshFile, ReadyToSwap, SwapFiles, InsertFile, RecordCold;
      local, nextUuid := local[m.path := Rows(chunk)], nextUuid + 1;
      Take(CompactWrite(t, m, Rows(chunk)));
    }

    method UnlinkOne(files: seq<Listed>, unlinkOk: bool, ghost t: nat, ghost start: Sys)
      requires Follows(start) && t in sys.tasks && sys.tasks[t] == Unlinking(files) && files != []
      modifies this`local, this`sys, this`schedule
      ensures Follows(start) && sys.store.table == old(sys.store.table)
      ensures schedule == old(schedule) + [CompactUnlink(t, unlinkOk)]
      ensures sys.tasks == old(sys.tasks)[t := Unlinking(files[1..])]
      ensures local == if unlinkOk then old(local) - {files[0].path} else old(local)
    {
      hide ListingOf, FreshFile, ReadyToSwap, SwapFiles, InsertFile, RecordCold;
      if unlinkOk {
        local := local - {files[0].path};
      }
      Take(CompactUnlink(t, unlinkOk));
    }

    /** Best-effort deletion of the superseded files; unlinkOk says which deletions succeed. */
    method UnlinkAll(files: seq<Listed>, unlinkOk: seq<bool>, ghost t: nat, ghost start: Sys)
      requires Follows(start) && t in sys.tasks && sys.tasks[t] == Unlinking(files) && |unlinkOk| == |files|
      modifies this`local, this`sys, this`schedule
      ensures Follows(start) && sys.store.table == old(sys.store.table) && old(schedule) <= schedule
      ensures sys.tasks == old(sys.tasks) - {t}
      ensures local == old(local) - Unlinked(files, unlinkOk, |files|)
    {
      hide Enabled, Effect, Apply, Run;
      for i := 0 to |files|
        invariant Follows(start) && sys.store.table == old(sys.store.table) && old(schedule) <= schedule
        invariant sys.tasks == old(sys.tasks)[t := Unlinking(files[i..])]
        invariant local == old(local) - Unlinked(files, unlinkOk, i)
      {
        assert files[i..][1..] == files[i + 1..];
        UnlinkOne(files[i..], unlinkOk[i], t, start);
      }
      AbortStep(sys, t);
      Take(Abort(t));
    }

    /** The second half of compact_bucket: split, write, swap, unlink. */
    method WriteAndSwap(
      service: string, bucket: string, batches: Chunk, target: nat, sizeOf: Chunk -> int, now: int,
      unlinkOk: seq<bool>, ghost t: nat, files: seq<Listed>, ghost contents: seq<File>, ghost start: Sys)
      returns (ok: bool, metas: seq<Meta>, ghost written: seq<File>)
      requires Follows(start) && t in sys.tasks
      requires sys.tasks[t] == Compacting(Bucket(service, bucket), files, contents, [], [])
      requires |contents| == |files| == |unlinkOk|
      requires Rows(batches) != [] && IsCompaction(Flatten(contents), Rows(batches))
      requires forall i :: 0 <= i < |files| ==> files[i].path.uuid < nextUuid
      modifies this, manifest
      ensures Follows(start) && old(schedule) <= schedule && sys.tasks == old(sys.tasks) - {t}
      ensures AllSound(metas, written) && Flatten(written) == Rows(batches)
      ensures forall i :: 0 <= i < |metas| ==> metas[i].service == service && metas[i].bucket == bucket
      ensures KeepsFiles(old(local), local, if ok then Unlinked(files, unlinkOk, |files|) else {})
      ensures Stored(local, metas, written)
      ensures ok <==> Swap(old(manifest.Contents()), Ids(files), metas, now).Some?
      ensures ok ==> Swap(old(manifest.Contents()), Ids(files), metas, now) == Some(manifest.Contents())
      ensures !ok ==> manifest.Contents() == old(manifest.Contents())
    {
      hide Enabled, Effect, Apply, Run, IsDedup, Sorted, IsSplit, Maximal, MetaSound, AllSound;
      hide SwapFiles, Swap, Rows, Flatten, KeepsFiles, Stored, Unlinked;
      var chunks := SplitByIpcSize(batches, target);
      SplitKeepsBatches(chunks, batches, target);
      metas, written := WriteAll(chunks, service, bucket, sizeOf, t, files, contents, start);
      NoRowsNoOutput(Flatten(contents), Flatten(written));
      assert ReadyToSwap(sys.tasks[t]);
      SwapStep(sys, t, now);
      SwapIs(sys.store, Ids(files), metas, written, now);
      var ids := seq(|files|, i requires 0 <= i < |files| => files[i].id);
      IdsOfFiles(files, ids);
      ok := manifest.SwapCompacted(ids, metas, now);
      Take(CompactSwap(t, now));
      if ok {
        ghost var full := local;
        UnlinkAll(files, unlinkOk, t, start);
        AfterUnlink(old(local), full, metas, written, files, unlinkOk, old(nextUuid));
      }
    }

    /** compact_bucket: list, read all, deduplicate and sort, write the chunks, swap, unlink.
        `query` is the compaction SQL, taken to compute what the relation IsCompaction says. */
    method CompactBucket(
      service: string, bucket: string, files: seq<Listed>, target: nat, query: seq<Event> -> Chunk,
      sizeOf: Chunk -> int, now: int, unlinkOk: seq<bool>, ghost t: nat, ghost start: Sys)
      returns (ok: bool, metas: seq<Meta>, ghost written: seq<File>)
      requires Follows(start) && t !in sys.tasks && |unlinkOk| == |files|
      requires ListingOf(sys.store, files, r => InBucket(r, service, bucket))
      requires forall i :: 0 <= i < |files| ==> files[i].path.Local?
      requires forall rows :: IsCompaction(rows, Rows(query(rows)))
      modifies this, manifest
      ensures Follows(start) && old(schedule) <= schedule && sys.tasks == old(sys.tasks) - {t}
      ensures forall i :: 0 <= i < |metas| ==> metas[i].service == service && metas[i].bucket == bucket
      ensures WorthCompacting(old(local), files, query) ==>
                && AllSound(metas, written) && Flatten(written) == Rows(query(Flatten(Read(old(local), files))))
                && (ok <==> Swap(old(manifest.Contents()), Ids(files), metas, now).Some?)
      ensures ok ==> Swap(old(manifest.Contents()), Ids(files), metas, now) == Some(manifest.Contents())
      ensures !ok ==> manifest.Contents() == old(manifest.Contents())
      ensures !WorthCompacting(old(local), files, query) ==> !ok && sys.store == old(sys.store)
      ensures KeepsFiles(old(local), local, if ok then Unlinked(files, unlinkOk, |files|) else {})
    {
      hide Enabled, Effect, Apply, Run, ListingOf, IsDedup, Sorted, IsSplit, Maximal, MetaSound, SwapFiles, Swap;
      hide KeepsFiles, Unlinked, AllSound, Stored, Rows, Flatten;
      KeepsAll(local);
      ok, metas, written := false, [], [];
      if |files| < 2 {
        return;
      }
      ListStep(sys, t, service, bucket, files);
      Take(CompactList(t, service, bucket, files));
      var contents, complete := ReadAll(files, Bucket(service, bucket), t, start);
      if !complete {
        return;
      }
      assert contents == Read(local, files);
      var batches := query(Flatten(contents));
      if Rows(batches) == [] {
        AbortStep(sys, t);
        Take(Abort(t));
        return;
      }
      ok, metas, written :=
        WriteAndSwap(service, bucket, batches, target, sizeOf, now, unlinkOk, t, files, contents, start);
    }
  }

  /** The files written are on disk. */
  ghost predicate Stored(local: map<Path, File>, metas: seq<Meta>, written: seq<File>) {
    |metas| == |written| && forall i :: 0 <= i < |metas| ==>
      metas[i].path in local && local[metas[i].path] == written[i]
  }

  /** No file is lost or changed but those in gone. */
  ghost predicate KeepsFiles(before: map<Path, File>, after: map<Path, File>, gone: set<Path>) {
    forall p :: p in before && p !in gone ==> p in after && after[p] == before[p]
  }

  lemma NoneStored(local: map<Path, File>)
    ensures Stored(local, [], [])
  {
  }

  lemma StoredSnoc(
    first: map<Path, File>, local: map<Path, File>, metas: seq<Meta>, written: seq<File>, m: Meta, rows: File)
    requires Stored(local, metas, written) && KeepsFiles(first, local, {}) && m.path !in local
    ensures var more := local[m.path := rows];
            Stored(more, metas + [m], written + [rows]) && KeepsFiles(first, more, {})
  {
  }

  lemma KeepsAll(local: map<Path, File>)
    ensures KeepsFiles(local, local, {})
  {
  }

  /** The ids of the first n files whose deletion succeeded. */
  function SweptIds(files: seq<(Listed, Tier)>, deleteOk: seq<bool>, n: nat): set<int>
    requires n <= |files| == |deleteOk|
  {
    if n == 0 then {}
    else SweptIds(files, deleteOk, n - 1) + if deleteOk[n - 1] then {files[n - 1].0.id} else {}
  }

  /** The paths of the files of one tier among the first n whose deletion succeeded. */
  function SweptPaths(files: seq<(Listed, Tier)>, deleteOk: seq<bool>, tier: Tier, n: nat): set<Path>
    requires n <= |files| == |deleteOk|
  {
    if n == 0 then {}
    else SweptPaths(files, deleteOk, tier, n - 1)
         + if deleteOk[n - 1] && files[n - 1].1 == tier then {files[n - 1].0.path} else {}
  }

  /** What SweptIds and SweptPaths list: the files of the deleted rows, and no others. */
  lemma {:induction false} SweptFilesAre(files: seq<(Listed, Tier)>, deleteOk: seq<bool>, n: nat)
    requires n <= |files| == |deleteOk|
    ensures forall id :: id in SweptIds(files, deleteOk, n) <==>
              exists i :: 0 <= i < n && deleteOk[i] && files[i].0.id == id
    ensures forall tier, p :: p in SweptPaths(files, deleteOk, tier, n) <==>
              exists i :: 0 <= i < n && deleteOk[i] && files[i].1 == tier && files[i].0.path == p
  {
    if n > 0 {
      SweptFilesAre(files, deleteOk, n - 1);
      forall id ensures id in SweptIds(files, deleteOk, n) <==>
        exists i :: 0 <= i < n && deleteOk[i] && files[i].0.id == id
      {
        if i :| 0 <= i < n && deleteOk[i] && files[i].0.id == id {
          assert i == n - 1 || i < n - 1;
        }
      }
      forall tier, p ensures p in SweptPaths(files, deleteOk, tier, n) <==>
        exists i :: 0 <= i < n && deleteOk[i] && files[i].1 == tier && files[i].0.path == p
      {
        if i :| 0 <= i < n && deleteOk[i] && files[i].1 == tier && files[i].0.path == p {
          assert i == n - 1 || i < n - 1;
        }
      }
    }
  }

  lemma SweptFrom(disk: map<Path, File>, files: seq<(Listed, Tier)>, deleteOk: seq<bool>, tier: Tier, i: nat)
    requires i < |files| == |deleteOk|
    ensures var before := disk - SweptPaths(files, deleteOk, tier, i);
            disk - SweptPaths(files, deleteOk, tier, i + 1) ==
            if deleteOk[i] && files[i].1 == tier then before - {files[i].0.path} else before
  {
  }

  lemma SweptNoFile(disk: map<Path, File>, files: seq<(Listed, Tier)>, deleteOk: seq<bool>, tier: Tier)
    requires |files| == |deleteOk|
    ensures disk - SweptPaths(files, deleteOk, tier, 0) == disk
  {
  }

  lemma SweptNone(t: Table, files: seq<(Listed, Tier)>, deleteOk: seq<bool>)
    requires |files| == |deleteOk|
    ensures t.(rows := t.rows - SweptIds(files, deleteOk, 0)) == t
  {
  }

  lemma SweptMore(t: Table, files: seq<(Listed, Tier)>, deleteOk: seq<bool>, i: nat)
    requires i < |files| == |deleteOk|
    ensures var before := t.(rows := t.rows - SweptIds(files, deleteOk, i));
            t.(rows := t.rows - SweptIds(files, deleteOk, i + 1)) ==
            if deleteOk[i] then Delete(before, files[i].0.id) else before
  {
  }

  /** The paths among the first n files that could be deleted. */
  function Unlinked(files: seq<Listed>, unlinkOk: seq<bool>, n: nat): set<Path>
    requires n <= |files| == |unlinkOk|
  {
    if n == 0 then {}
    else Unlinked(files, unlinkOk, n - 1) + if unlinkOk[n - 1] then {files[n - 1].path} else {}
  }

  lemma {:induction false} UnlinkedAreOld(files: seq<Listed>, unlinkOk: seq<bool>, n: nat, next: nat)
    requires n <= |files| == |unlinkOk| && forall i :: 0 <= i < |files| ==> files[i].path.uuid < next
    ensures forall p :: p in Unlinked(files, unlinkOk, n) ==> p.uuid < next
  {
    if n > 0 {
      UnlinkedAreOld(files, unlinkOk, n - 1, next);
    }
  }

  lemma AfterUnlink(
    before: map<Path, File>, full: map<Path, File>, metas: seq<Meta>, written: seq<File>,
    files: seq<Listed>, unlinkOk: seq<bool>, next: nat)
    requires KeepsFiles(before, full, {}) && Stored(full, metas, written) && |files| == |unlinkOk|
    requires forall i :: 0 <= i < |metas| ==> metas[i].path.uuid >= next
    requires forall i :: 0 <= i < |files| ==> files[i].path.uuid < next
    ensures var gone := Unlinked(files, unlinkOk, |files|);
            KeepsFiles(before, full - gone, gone) && Stored(full - gone, metas, written)
  {
    hide Unlinked;
    UnlinkedAreOld(files, unlinkOk, |files|, next);
  }

  /** What reading the listed files gives. */
  function Read(local: map<Path, File>, files: seq<Listed>): seq<File>
    requires forall i :: 0 <= i < |files| ==> files[i].path in local
  {
    seq(|files|, i requires 0 <= i < |files| => local[files[i].path])
  }

  /** A bucket is rewritten only if it has at least two files, all of them are there, and they
      hold at least one row. */
  ghost predicate WorthCompacting(local: map<Path, File>, files: seq<Listed>, query: seq<Event> -> Chunk) {
    && |files| >= 2 && (forall i :: 0 <= i < |files| ==> files[i].path in local)
    && Rows(query(Flatten(Read(local, files)))) != []
  }

  lemma SplitKeepsBatches(chunks: seq<Chunk>, batches: Chunk, target: nat)
    requires IsSplit(chunks, batches, target)
    ensures Flatten(chunks) == batches
  {
  }

  lemma NoRowsNoOutput(rows: seq<Event>, out: seq<Event>)
    requires IsDedup(rows, out) && out != []
    ensures rows != []
  {
    assert out[0] in out;
  }
}
