/** Tasks that come, wait for their blocks, get outputs and go
    (runtime/src/llm_engine/scheduler.rs, lines 157-217, 607-652 and 742-754; engine.rs, lines 178-307). */
module Lifecycle {
  import opened Prelude
  import opened BlockPool
  import opened BlockManagerSpec
  import opened BlockManagerInv
  import opened Allocation
  import opened PrefixCache
  import opened Regions
  import opened Release
  import opened Dispatch
  import opened KvCopy
  import opened StagedCopy
  import opened Forgetting
  import opened Queues
  import opened SchedulerState
  import opened Reordering
  import opened Updates
  import opened BlockManagerRuns

  // ---------------------------------------------------------------- frames

  /** Nothing but the blocks, tables and regions of the devices changed. */
  lemma SceneFrame(gpu: Manager, host: Manager, disk: Manager, seqs: map<SeqId, Sequence>, home: map<SeqId, Task>,
                   ws: seq<Task>, acts: seq<Task>, p: multiset<Task>, others: multiset<Task>, progress: map<SeqId, nat>,
                   gpu': Manager, host': Manager, disk': Manager)
    requires Scene(gpu, host, disk, seqs, home, ws, acts, p, others, progress) && DevicesOk(gpu', host', disk', seqs)
    requires gpu'.maps == gpu.maps && host'.maps == host.maps && host'.bs == host.bs
    ensures Scene(gpu', host', disk', seqs, home, ws, acts, p, others, progress)
  {
    hide DevicesOk, TasksOk, Settled;
  }

  /** A device with the same block lists, in order. */
  ghost predicate SameMaps(m: Manager, m': Manager, seqs: map<SeqId, Sequence>) {
    m'.maps == m.maps && m'.bs == m.bs && Inv(m', TextsOf(seqs), multiset{})
  }

  lemma SameMapsMeans(m: Manager, m': Manager, seqs: map<SeqId, Sequence>)
    ensures SameMaps(m, m', seqs) ==> m'.maps == m.maps && m'.bs == m.bs && Inv(m', TextsOf(seqs), multiset{})
  {
    hide Inv;
  }

  lemma DevicesFrame(gpu: Manager, host: Manager, disk: Manager, seqs: map<SeqId, Sequence>, gpu': Manager,
                     host': Manager, disk': Manager)
    requires DevicesOk(gpu, host, disk, seqs) && SameMaps(gpu, gpu', seqs) && SameMaps(host, host', seqs)
    requires SameMaps(disk, disk', seqs)
    ensures DevicesOk(gpu', host', disk', seqs)
  {
    hide Inv, Aligned, Settled;
  }

  lemma DevicesParts(gpu: Manager, host: Manager, disk: Manager, seqs: map<SeqId, Sequence>)
    requires DevicesOk(gpu, host, disk, seqs)
    ensures SameMaps(gpu, gpu, seqs) && SameMaps(host, host, seqs) && SameMaps(disk, disk, seqs)
    ensures gpu.bs == host.bs == disk.bs
    ensures Inv(gpu, TextsOf(seqs), multiset{}) && Inv(host, TextsOf(seqs), multiset{})
    ensures Inv(disk, TextsOf(seqs), multiset{})
  {
    hide Inv, HostAligned, AllSettled;
  }

  // ---------------------------------------------------------------- texts

  /** The texts of all mapped sequences are there, possibly longer. */
  lemma DevicesLonger(gpu: Manager, host: Manager, disk: Manager, seqs: map<SeqId, Sequence>,
                      seqs': map<SeqId, Sequence>)
    requires DevicesOk(gpu, host, disk, seqs)
    requires forall q :: q in seqs && (q in gpu.maps || q in host.maps || q in disk.maps) ==>
      (q in seqs' && seqs[q].toks <= seqs'[q].toks)
    ensures DevicesOk(gpu, host, disk, seqs')
  {
    hide Inv, HostAligned, AllSettled;
    MappedKnown(gpu, TextsOf(seqs));
    MappedKnown(host, TextsOf(seqs));
    MappedKnown(disk, TextsOf(seqs));
    InvLonger(gpu, TextsOf(seqs), TextsOf(seqs'), multiset{});
    InvLonger(host, TextsOf(seqs), TextsOf(seqs'), multiset{});
    InvLonger(disk, TextsOf(seqs), TextsOf(seqs'), multiset{});
  }

  lemma MappedKnown(m: Manager, texts: Texts)
    requires Inv(m, texts, multiset{})
    ensures forall q :: q in m.maps ==> q in texts
  {
    hide PoolOk, BlocksOk, TableOk, RegionsOk, Held, Spells;
  }

  /** A sequence that is new to the scheduler is new to the devices. */
  lemma NewToDevices(gpu: Manager, host: Manager, disk: Manager, seqs: map<SeqId, Sequence>, q: SeqId, s: Sequence)
    requires DevicesOk(gpu, host, disk, seqs) && q !in seqs
    ensures q !in gpu.maps && q !in host.maps && q !in disk.maps
    ensures DevicesOk(gpu, host, disk, seqs[q := s])
  {
    hide DevicesOk;
    DevicesParts(gpu, host, disk, seqs);
    MappedKnown(gpu, TextsOf(seqs));
    MappedKnown(host, TextsOf(seqs));
    MappedKnown(disk, TextsOf(seqs));
    DevicesLonger(gpu, host, disk, seqs, seqs[q := s]);
  }

  // ---------------------------------------------------------------- a task comes

  /** The maps differ at most at `q`. */
  ghost predicate SameBut(before: map<SeqId, BlockMap>, after: map<SeqId, BlockMap>, q: SeqId) {
    forall o :: o != q ==> (o in after <==> o in before) && (o in before ==> after[o] == before[o])
  }

  lemma TasksJoin(all: multiset<Task>, home: map<SeqId, Task>, t: Task)
    requires TasksOk(all, home) && t.id !in home
    ensures TasksOk(all + multiset{t}, home[t.id := t])
    ensures forall u :: u in all ==> u.id != t.id
  {
    assert forall u :: u in all ==> u.id in home;
    assert t !in all;
  }

  lemma PlacedJoin(gpu: Manager, host: Manager, host': Manager, w: multiset<Task>, a: multiset<Task>, p: multiset<Task>,
                   w': multiset<Task>, p': multiset<Task>, t: Task)
    requires Placed(gpu, host, w, a, p) && (forall u :: u in w || u in a || u in p ==> u.id != t.id)
    requires SameBut(host.maps, host'.maps, t.id) && host'.bs == host.bs
    requires (w' == w + multiset{t} && p' == p && t.id in host'.maps)
          || (w' == w && p' == p + multiset{t} && t.id !in gpu.maps
              && (t.id in host'.maps ==> Settled(host.bs, host'.maps[t.id])))
    ensures Placed(gpu, host', w', a, p')
  {
    hide Settled;
  }

  lemma ProgressFrame(progress: map<SeqId, nat>, gpu: Manager, host: Manager, host': Manager, a: multiset<Task>,
                      home: map<SeqId, Task>, home': map<SeqId, Task>, q: SeqId)
    requires ProgressOk(progress, gpu, host, a, home) && q !in progress && SameBut(host.maps, host'.maps, q)
    requires forall o :: o in home && o != q ==> o in home' && home'[o] == home[o]
    ensures ProgressOk(progress, gpu, host', a, home')
  {
  }

  /** A new task, waiting or pending. */
  lemma SceneJoin(gpu: Manager, host: Manager, disk: Manager, seqs: map<SeqId, Sequence>, home: map<SeqId, Task>,
                  ws: seq<Task>, acts: seq<Task>, p: multiset<Task>, others: multiset<Task>, progress: map<SeqId, nat>,
                  t: Task, s: Sequence, host': Manager, disk': Manager, waits: bool)
    requires Scene(gpu, host, disk, seqs, home, ws, acts, p, others, progress) && t.id !in seqs
    requires DevicesOk(gpu, host', disk', seqs[t.id := s]) && SameBut(host.maps, host'.maps, t.id)
    requires host'.bs == host.bs
    requires if waits then t.id in host'.maps else t.id in host'.maps ==> Settled(host.bs, host'.maps[t.id])
    ensures Scene(gpu, host', disk', seqs[t.id := s], home[t.id := t], if waits then ws + [t] else ws, acts,
                  if waits then p else p + multiset{t}, others, progress)
  {
    hide DevicesOk, Placed, TasksOk, ProgressOk, SameBut, Settled;
    var ws' := if waits then ws + [t] else ws;
    var p' := if waits then p else p + multiset{t};
    var all := multiset(ws) + multiset(acts) + p + others;
    TasksJoin(all, home, t);
    assert multiset(ws') + multiset(acts) + p' + others == all + multiset{t};
    assert forall u :: u in multiset(ws) || u in multiset(acts) || u in p ==> u in all;
    NewToDevices(gpu, host, disk, seqs, t.id, s);
    PlacedJoin(gpu, host, host', multiset(ws), multiset(acts), p, multiset(ws'), p', t);
    NoProgressFor(progress, gpu, host, multiset(acts), home, t.id);
    ProgressFrame(progress, gpu, host, host', multiset(acts), home, home[t.id := t], t.id);
  }

  lemma NoProgressFor(progress: map<SeqId, nat>, gpu: Manager, host: Manager, a: multiset<Task>, home: map<SeqId, Task>,
                      q: SeqId)
    requires ProgressOk(progress, gpu, host, a, home) && q !in home
    ensures q !in progress
  {
  }

  // ---------------------------------------------------------------- a pending task is triggered

  lemma PlacedTrigger(gpu: Manager, host: Manager, host': Manager, w: multiset<Task>, a: multiset<Task>,
                      p: multiset<Task>, all: multiset<Task>, home: map<SeqId, Task>, t: Task)
    requires Placed(gpu, host, w, a, p) && TasksOk(all, home) && w + a + p <= all && t in p
    requires SameBut(host.maps, host'.maps, t.id) && host'.bs == host.bs && t.id in host'.maps
    ensures Placed(gpu, host', w + multiset{t}, a, p - multiset{t})
  {
    hide Settled;
    assert (p - multiset{t}) + multiset{t} == p;
    forall u | u in p - multiset{t}
      ensures u.id != t.id && u in p
    {
      assert (p - multiset{t}) + multiset{t} <= w + a + p <= all;
      OtherTask(all, home, p - multiset{t}, multiset{t}, u, t);
    }
  }

  lemma PendingNoProgress(progress: map<SeqId, nat>, gpu: Manager, host: Manager, all: multiset<Task>,
                          w: multiset<Task>, a: multiset<Task>, p: multiset<Task>, home: map<SeqId, Task>, t: Task)
    requires ProgressOk(progress, gpu, host, a, home) && TasksOk(all, home) && w + a + p <= all && t in p
    ensures t.id !in progress
  {
    forall u | u in a
      ensures u.id != t.id
    {
      assert p + a <= w + a + p;
      OtherTask(all, home, p, a, t, u);
    }
  }

  lemma SceneTrigger(gpu: Manager, host: Manager, disk: Manager, seqs: map<SeqId, Sequence>, home: map<SeqId, Task>,
                     ws: seq<Task>, acts: seq<Task>, p: multiset<Task>, others: multiset<Task>,
                     progress: map<SeqId, nat>, t: Task, host': Manager, k: nat)
    requires Scene(gpu, host, disk, seqs, home, ws, acts, p, others, progress) && t in p && k <= |ws|
    requires DevicesOk(gpu, host', disk, seqs) && SameBut(host.maps, host'.maps, t.id) && host'.bs == host.bs
    requires t.id in host'.maps
    ensures Scene(gpu, host', disk, seqs, home, InsertAt(ws, t, k), acts, p - multiset{t}, others, progress)
  {
    hide DevicesOk, Placed, TasksOk, ProgressOk, SameBut, InsertAt;
    var all := multiset(ws) + multiset(acts) + p + others;
    Within(multiset(ws), multiset(acts), p, others);
    InsertAtTasks(ws, t, k);
    PlacedTrigger(gpu, host, host', multiset(ws), multiset(acts), p, all, home, t);
    PendingNoProgress(progress, gpu, host, all, multiset(ws), multiset(acts), p, home, t);
    ProgressFrame(progress, gpu, host, host', multiset(acts), home, home, t.id);
    assert multiset(ws) + multiset{t} + multiset(acts) + (p - multiset{t}) + others == all;
  }

  /** A pending task has a sequence, and what it may have on the host is settled. */
  lemma ScenePending(gpu: Manager, host: Manager, disk: Manager, seqs: map<SeqId, Sequence>, home: map<SeqId, Task>,
                     ws: seq<Task>, acts: seq<Task>, p: multiset<Task>, others: multiset<Task>,
                     progress: map<SeqId, nat>, t: Task)
    requires Scene(gpu, host, disk, seqs, home, ws, acts, p, others, progress) && t in p
    ensures t.id in seqs && DevicesOk(gpu, host, disk, seqs)
    ensures (t.id in host.maps ==> Settled(host.bs, host.maps[t.id]))
  {
    hide DevicesOk, ProgressOk, Settled;
    assert t in multiset(ws) + multiset(acts) + p + others;
  }

  // ---------------------------------------------------------------- a batch's outputs are taken

  lemma PlacedLess(gpu: Manager, host: Manager, w: multiset<Task>, a: multiset<Task>, p: multiset<Task>,
                   a': multiset<Task>)
    requires Placed(gpu, host, w, a, p) && a' <= a
    ensures Placed(gpu, host, w, a', p)
  {
    hide Settled;
    assert forall t :: t in a' ==> t in a;
  }

  lemma ProgressLess(progress: map<SeqId, nat>, gpu: Manager, host: Manager, acts: seq<Task>, still: seq<Task>,
                     finished: seq<Task>, all: multiset<Task>, home: map<SeqId, Task>)
    requires ProgressOk(progress, gpu, host, multiset(acts), home) && TasksOk(all, home)
    requires multiset(still) + multiset(finished) == multiset(acts)
    ensures ProgressOk(progress - (set q | q in Ids(finished)), gpu, host, multiset(still), home)
  {
    forall q | q in progress && q !in Ids(finished)
      ensures home[q] in multiset(still)
    {
      assert home[q] in multiset(still) + multiset(finished);
      IdListed(finished, home[q]);
    }
  }

  lemma IdListed(ts: seq<Task>, t: Task)
    ensures t in ts ==> t.id in Ids(ts)
  {
    if t in ts {
      var i :| 0 <= i < |ts| && ts[i] == t;
      assert Ids(ts)[i] == t.id;
    }
  }

  /** The texts of a batch's sequences have grown, and its finished tasks are no longer active. */
  lemma SceneUpdate(gpu: Manager, host: Manager, disk: Manager, seqs: map<SeqId, Sequence>, home: map<SeqId, Task>,
                    ws: seq<Task>, acts: seq<Task>, p: multiset<Task>, others: multiset<Task>,
                    progress: map<SeqId, nat>, seqs': map<SeqId, Sequence>, still: seq<Task>, finished: seq<Task>,
                    running: map<SeqId, bool>, outputs: map<SeqId, Output>)
    requires Scene(gpu, host, disk, seqs, home, ws, acts, p, others, progress)
    requires UpdatedFor(seqs, seqs', acts, running, outputs) && Split(acts, still, finished)
    ensures Scene(gpu, host, disk, seqs', home, ws, still, p, others + multiset(finished),
                  progress - (set q | q in Ids(finished)))
  {
    hide DevicesOk, Placed, TasksOk, ProgressOk, UpdatedFor, Sorted;
    var all := multiset(ws) + multiset(acts) + p + others;
    TextsGrow(seqs, seqs', acts, running, outputs);
    DevicesLonger(gpu, host, disk, seqs, seqs');
    assert multiset(ws) + multiset(still) + p + (others + multiset(finished)) == all;
    PlacedLess(gpu, host, multiset(ws), multiset(acts), p, multiset(still));
    ProgressLess(progress, gpu, host, acts, still, finished, all, home);
  }

  lemma TextsGrow(seqs: map<SeqId, Sequence>, seqs': map<SeqId, Sequence>, ts: seq<Task>, running: map<SeqId, bool>,
                  outputs: map<SeqId, Output>)
    requires UpdatedFor(seqs, seqs', ts, running, outputs)
    ensures seqs'.Keys == seqs.Keys && forall q :: q in seqs ==> seqs[q].toks <= seqs'[q].toks
  {
    forall q | q in seqs
      ensures seqs[q].toks <= seqs'[q].toks
    {
      if q in Ids(ts) {
        var i :| 0 <= i < |ts| && Ids(ts)[i] == q;
        assert seqs'[ts[i].id] == After(seqs[ts[i].id], ts[i].id, running, outputs);
      }
    }
  }

  // ---------------------------------------------------------------- a task goes

  lemma TasksLeave(all: multiset<Task>, home: map<SeqId, Task>, t: Task)
    requires TasksOk(all, home) && t in all
    ensures TasksOk(all - multiset{t}, home - {t.id}) && t.id in home && home[t.id] == t
    ensures forall u :: u in all - multiset{t} ==> u.id != t.id
  {
    assert forall u :: u in all - multiset{t} ==> u in all && u != t;
    assert forall q :: q in home && q != t.id ==> home[q] != t;
  }

  lemma WithoutOne(w: multiset<Task>, a: multiset<Task>, p: multiset<Task>, others: multiset<Task>, t: Task)
    requires t in others
    ensures t in w + a + p + others
    ensures w + a + p + (others - multiset{t}) == (w + a + p + others) - multiset{t}
  {
  }

  /** The device without the blocks of `q`. */
  ghost predicate Gone(m: Manager, m': Manager, seqs: map<SeqId, Sequence>, q: SeqId) {
    m'.maps == m.maps - {q} && m'.bs == m.bs && m'.regions == m.regions && Inv(m', TextsOf(seqs), multiset{})
  }

  lemma DevicesGone(gpu: Manager, host: Manager, disk: Manager, gpu': Manager, host': Manager, disk': Manager,
                    seqs: map<SeqId, Sequence>, q: SeqId)
    requires DevicesOk(gpu, host, disk, seqs) && Gone(gpu, gpu', seqs, q) && Gone(host, host', seqs, q)
    requires disk'.maps == disk.maps - {q} && disk'.bs == disk.bs && Inv(disk', TextsOf(seqs), multiset{})
    ensures DevicesOk(gpu', host', disk', seqs - {q})
  {
    hide Inv, Aligned, Settled;
    assert DevicesOk(gpu', host', disk', seqs);
    DevicesLonger(gpu', host', disk', seqs, seqs - {q});
  }

  lemma PlacedGone(gpu: Manager, host: Manager, gpu': Manager, host': Manager, w: multiset<Task>, a: multiset<Task>,
                   p: multiset<Task>, q: SeqId)
    requires Placed(gpu, host, w, a, p) && (forall u :: u in w || u in a || u in p ==> u.id != q)
    requires gpu'.maps == gpu.maps - {q} && host'.maps == host.maps - {q} && host'.bs == host.bs
    ensures Placed(gpu', host', w, a, p)
  {
    hide Settled;
  }

  lemma ProgressGone(progress: map<SeqId, nat>, gpu: Manager, host: Manager, gpu': Manager, host': Manager,
                     a: multiset<Task>, home: map<SeqId, Task>, q: SeqId)
    requires ProgressOk(progress, gpu, host, a, home) && q in home && home[q] !in a
    requires gpu'.maps == gpu.maps - {q} && host'.maps == host.maps - {q}
    ensures ProgressOk(progress, gpu', host', a, home - {q})
  {
  }

  /** A finished task leaves with all its blocks. */
  lemma SceneLeave(gpu: Manager, host: Manager, disk: Manager, seqs: map<SeqId, Sequence>, home: map<SeqId, Task>,
                   ws: seq<Task>, acts: seq<Task>, p: multiset<Task>, others: multiset<Task>, progress: map<SeqId, nat>,
                   t: Task, gpu': Manager, host': Manager, disk': Manager)
    requires Scene(gpu, host, disk, seqs, home, ws, acts, p, others, progress) && t in others
    requires Gone(gpu, gpu', seqs, t.id) && Gone(host, host', seqs, t.id)
    requires disk'.maps == disk.maps - {t.id} && disk'.bs == disk.bs && Inv(disk', TextsOf(seqs), multiset{})
    ensures Scene(gpu', host', disk', seqs - {t.id}, home - {t.id}, ws, acts, p, others - multiset{t}, progress)
  {
    hide DevicesOk, Placed, ProgressOk, TasksOk, Inv;
    var w, a := multiset(ws), multiset(acts);
    var all := w + a + p + others;
    WithoutOne(w, a, p, others, t);
    TasksLeave(all, home, t);
    assert forall u :: u in w || u in a || u in p ==> u in w + a + p + (others - multiset{t});
    DevicesGone(gpu, host, disk, gpu', host', disk', seqs, t.id);
    PlacedGone(gpu, host, gpu', host', w, a, p, t.id);
    ProgressGone(progress, gpu, host, gpu', host', a, home, t.id);
  }

  // ---------------------------------------------------------------- what these steps do on a device

  lemma TextsJoin(seqs: map<SeqId, Sequence>, q: SeqId, s: Sequence)
    ensures TextsOf(seqs)[q := s.toks] == TextsOf(seqs[q := s])
  {
  }

  /** `q` has a block list now, of whole filled blocks. */
  ghost predicate Seated(m: Manager, m': Manager, seqs: map<SeqId, Sequence>, q: SeqId) {
    && SameBut(m.maps, m'.maps, q) && m'.bs == m.bs && Inv(m', TextsOf(seqs), multiset{})
    && q in m'.maps && Settled(m'.bs, m'.maps[q]) && Aligned(m'.maps[q].filled, m'.bs)
  }

  lemma SeatedByCache(m: Manager, m': Manager, texts: Texts, seqs: map<SeqId, Sequence>, q: SeqId, toks: seq<Token>)
    requires Cached(m, m', texts, q, toks) && texts[q := toks] == TextsOf(seqs)
    ensures Seated(m, m', seqs, q) && m'.regions == m.regions
  {
    hide Inv, Hits, HitsFrom, MoreHits, Pinned, Aligned;
    OffsetAligned(|MapOf(m, q).ids + MoreHits(m, q, toks)|, m.bs);
  }

  /** The new sequence owns the longest run of its chunks that is cached, all of it filled, and has taken the
      blocks of the run that were free from the free list. */
  ghost predicate TakesOver(m: Manager, m': Manager, q: SeqId, toks: seq<Token>) {
    var run := Hits(m, toks);
    && q in m'.maps && m'.maps[q] == BlockMap(run, Offset(|run|, m.bs), Offset(|run|, m.bs)) && m'.bs == m.bs
    && |m'.pool.free| == |m.pool.free| - CountFree(m.pool.blocks, run)
  }

  lemma TakesOverBy(m: Manager, m': Manager, texts: Texts, q: SeqId, toks: seq<Token>)
    requires Cached(m, m', texts, q, toks) && q !in m.maps
    ensures TakesOver(m, m', q, toks)
  {
    hide Inv, HitsFrom, SameContents, CountFree;
    assert Offset(0, m.bs) == 0;
    assert [] + Hits(m, toks) == Hits(m, toks);
  }

  /** `init_prefix_cache_blocks` for a new sequence; a second call changes nothing. */
  lemma InitDevice(m: Manager, seqs: map<SeqId, Sequence>, q: SeqId, s: Sequence)
    requires Inv(m, TextsOf(seqs), multiset{}) && q !in m.maps
    ensures InitPrefix(m, q, s.toks).Ok?
    ensures var m' := InitPrefix(m, q, s.toks).value.0;
      && Seated(m, m', seqs[q := s], q) && m'.regions == m.regions && TakesOver(m, m', q, s.toks)
      && InitPrefix(m', q, s.toks) == Ok((m', 0))
  {
    hide Inv, Hits, HitsFrom, Cached, MoreHits, InitPrefix, Seated, TakesOver;
    InitPrefixSafe(m, TextsOf(seqs), q, s.toks);
    TakesOverBy(m, InitPrefix(m, q, s.toks).value.0, TextsOf(seqs), q, s.toks);
    TextsJoin(seqs, q, s);
    var m' := InitPrefix(m, q, s.toks).value.0;
    SeatedByCache(m, m', TextsOf(seqs), seqs[q := s], q, s.toks);
    SeatedMapped(m, m', seqs[q := s], q);
    InitPrefixMapped(m', q, s.toks);
  }

  lemma SeatedMapped(m: Manager, m': Manager, seqs: map<SeqId, Sequence>, q: SeqId)
    requires Seated(m, m', seqs, q)
    ensures SameBut(m.maps, m'.maps, q) && m'.bs == m.bs && Inv(m', TextsOf(seqs), multiset{}) && q in m'.maps
    ensures Settled(m'.bs, m'.maps[q])
  {
    hide Inv, SameBut;
  }

  /** Host and disk seat a new sequence. */
  lemma DevicesSeated(gpu: Manager, host: Manager, disk: Manager, host': Manager, disk': Manager,
                      seqs: map<SeqId, Sequence>, q: SeqId)
    requires DevicesOk(gpu, host, disk, seqs) && Seated(host, host', seqs, q)
    requires (disk' == disk || Seated(disk, disk', seqs, q))
    ensures DevicesOk(gpu, host', disk', seqs)
  {
    hide Inv, Aligned, Settled;
  }

  /** The device part of `trigger_pend_task`: publish the received blocks of region `rid`, then take over
      all cached blocks of the sequence. */
  function TriggerOn(host: Manager, q: SeqId, toks: seq<Token>, rid: Option<RegionId>, hashes: seq<Hash>): Outcome<Manager> {
    var host1 :- (if rid.Some? then Activate(host, rid.value, hashes) else Ok((host, 0)));
    var (host2, _) :- UpdatePrefix(host1.0, q, toks);
    Ok(host2)
  }

  lemma TriggerDevice(host: Manager, seqs: map<SeqId, Sequence>, q: SeqId, rid: Option<RegionId>, hashes: seq<Hash>)
    requires Inv(host, TextsOf(seqs), multiset{}) && q in seqs && (q in host.maps ==> Settled(host.bs, host.maps[q]))
    ensures var r := TriggerOn(host, q, seqs[q].toks, rid, hashes);
      && r.Ok? && Seated(host, r.value, seqs, q)
      && r.value.regions == (if rid.Some? then host.regions - {rid.value} else host.regions)
    ensures rid.Some? ==> Activate(host, rid.value, hashes).Ok?
    ensures var host' := TriggerOn(host, q, seqs[q].toks, rid, hashes).value;
      var host1 := if rid.Some? then Activate(host, rid.value, hashes).value.0 else host;
      q in host'.maps && host'.maps[q].ids == MapOf(host, q).ids + MoreHits(host1, q, seqs[q].toks)
  {
    hide Inv, Cached, MoreHits, Activate, UpdatePrefix, Settled, CountCarried, Published, SameContents, SameBut, Seated;
    var texts, toks := TextsOf(seqs), seqs[q].toks;
    if rid.Some? {
      ActivateSafe(host, texts, rid.value, hashes);
    }
    var host1 := if rid.Some? then Activate(host, rid.value, hashes).value.0 else host;
    UpdatePrefixSafe(host1, texts, q, toks);
    assert texts[q := toks] == texts;
    SeatedByCache(host1, UpdatePrefix(host1, q, toks).value.0, texts, seqs, q, toks);
    SeatedFrom(host, host1, UpdatePrefix(host1, q, toks).value.0, seqs, q);
    CachedList(host1, UpdatePrefix(host1, q, toks).value.0, texts, q, toks);
  }

  lemma CachedList(m: Manager, m': Manager, texts: Texts, q: SeqId, toks: seq<Token>)
    requires Cached(m, m', texts, q, toks)
    ensures q in m'.maps && m'.maps[q].ids == MapOf(m, q).ids + MoreHits(m, q, toks)
  {
    hide Inv, MoreHits, Pinned;
  }

  lemma SeatedFrom(host: Manager, host1: Manager, host': Manager, seqs: map<SeqId, Sequence>, q: SeqId)
    requires Seated(host1, host', seqs, q) && host1.maps == host.maps && host1.bs == host.bs
    ensures Seated(host, host', seqs, q)
  {
    hide Inv, Aligned, Settled;
  }

  lemma FreeDevice(m: Manager, seqs: map<SeqId, Sequence>, q: SeqId, all: bool)
    requires Inv(m, TextsOf(seqs), multiset{})
    ensures FreeSeq(m, q, all).Ok? && Gone(m, FreeSeq(m, q, all).value, seqs, q)
  {
    hide Inv, FreeSeq, Unique, KeptFor, Held;
    ReleaseSafe(m, TextsOf(seqs), q, all);
  }

  /** `reserve_copy_blocks` for a sequence of the scheduler. */
  lemma StageDevice(src: Manager, dst: Manager, seqs: map<SeqId, Sequence>, q: SeqId, rid: RegionId)
    requires Inv(src, TextsOf(seqs), multiset{}) && Inv(dst, TextsOf(seqs), multiset{}) && src.bs == dst.bs && q in seqs
    requires rid !in dst.regions
    ensures src.Filled(q) <= |seqs[q].toks|
    ensures ReserveCopy(src, dst, q, seqs[q].toks, rid).Ok?
    ensures var (dst', plan) := ReserveCopy(src, dst, q, seqs[q].toks, rid).value;
      && SameMaps(dst, dst', seqs) && (plan.None? ==> dst' == dst)
      && dst'.table == dst.table && InUseSame(dst.pool, dst'.pool)
      && CopyExact(src, dst, q, seqs[q].toks, plan)
      && (plan.Some? ==> dst'.regions == dst.regions[rid := plan.value.0.ids] && plan.value.0.id == rid
                         && ExactPairs(src, dst', plan.value.0, plan.value.1) && RegionCarries(dst', plan.value.0))
  {
    hide Inv, ReserveCopy, ExactPairs, RegionCarries, CopyExact, InUseSame;
    if q in src.maps {
      MappedBounds(src, TextsOf(seqs), q);
    }
    ReserveCopySafe(src, dst, TextsOf(seqs), q, seqs[q].toks, rid);
  }

  const DISK_RECOMPUTE_THRESHOLD := 2048

  /** What a staging plan holds: blocks of the same content, from the disk to a new region of the host. */
  ghost predicate StageOk(host0: Manager, host: Manager, disk: Manager, q: SeqId, rid: RegionId,
                          plan: Option<(Region, seq<Entry>)>) {
    match plan
    case None => host.regions == host0.regions
    case Some((r, es)) =>
      && disk.Filled(q) >= host.Filled(q) + DISK_RECOMPUTE_THRESHOLD
      && r.id == rid && host.regions == host0.regions[rid := r.ids]
      && RegionCarries(host, r) && ExactPairs(disk, host, r, es)
  }

  /** A staging plan is made exactly when others wait, the cached run on the disk is at least the threshold
      longer than that on the host, and the host has room for the blocks missing there; it covers all of them. */
  ghost predicate StageExact(host0: Manager, disk0: Manager, toks: seq<Token>, busy: bool,
                             plan: Option<(Region, seq<Entry>)>) {
    var h, d, bs := Hits(host0, toks), Hits(disk0, toks), host0.bs;
    && (plan.Some? <==>
          && busy && Offset(|d|, bs) >= Offset(|h|, bs) + DISK_RECOMPUTE_THRESHOLD
          && |d| - |h| <= |host0.pool.free| - CountFree(host0.pool.blocks, h))
    && (plan.Some? ==> Covering(plan.value.0, plan.value.1, d, toks, |h|, |d|, bs))
  }

  /** Copying what the disk's run has more than the host's. */
  lemma StageRuns(host0: Manager, disk0: Manager, host1: Manager, disk1: Manager, q: SeqId, toks: seq<Token>,
                  plan: Option<(Region, seq<Entry>)>)
    requires TakesOver(host0, host1, q, toks) && TakesOver(disk0, disk1, q, toks) && host0.bs == disk0.bs
    requires disk1.Filled(q) >= host1.Filled(q) + DISK_RECOMPUTE_THRESHOLD && CopyExact(disk1, host1, q, toks, plan)
    ensures StageExact(host0, disk0, toks, true, plan)
  {
    hide Hits, Covering, CountFree, Offset;
    var h, d, bs := Hits(host0, toks), Hits(disk0, toks), host0.bs;
    OffsetAligned(|h|, bs);
    OffsetAligned(|d|, bs);
    if |d| <= |h| {
      OffsetMono(|d|, |h|, bs);
    }
  }

  lemma NoStage(host0: Manager, disk0: Manager, host1: Manager, disk1: Manager, q: SeqId, toks: seq<Token>, busy: bool)
    requires TakesOver(host0, host1, q, toks) && TakesOver(disk0, disk1, q, toks) && host0.bs == disk0.bs
    requires !busy || disk1.Filled(q) < host1.Filled(q) + DISK_RECOMPUTE_THRESHOLD
    ensures StageExact(host0, disk0, toks, busy, None)
  {
    hide Hits, Covering, CountFree, Offset;
  }

  /** The steps of `plan_stage`. */
  function Staging(host: Manager, disk: Manager, q: SeqId, toks: seq<Token>, busy: bool,
                   rid: RegionId): Outcome<(Manager, Manager, Option<(Region, seq<Entry>)>)> {
    var (host1, _) :- InitPrefix(host, q, toks);
    var (disk1, _) :- InitPrefix(disk, q, toks);
    if !busy || disk1.Filled(q) < host1.Filled(q) + DISK_RECOMPUTE_THRESHOLD then Ok((host1, disk1, None))
    else if disk1.Filled(q) > |toks| then Panic(OutOfBounds)
    else
      var (host2, plan) :- ReserveCopy(disk1, host1, q, toks, rid);
      Ok((host2, disk1, plan))
  }

  /** `plan_stage`: a new sequence takes over its cached blocks on host and disk; and if others are
      waiting and the disk has enough more of it, its blocks are to be staged to the host. */
  method PlanStage(ghost gpu: Manager, host0: Manager, disk0: Manager, ghost seqs: map<SeqId, Sequence>, q: SeqId,
                   s: Sequence, busy: bool, rid: RegionId)
    returns (host: Manager, disk: Manager, plan: Option<(Region, seq<Entry>)>)
    requires DevicesOk(gpu, host0, disk0, seqs) && q !in seqs && rid !in host0.regions
    ensures DevicesOk(gpu, host, disk, seqs[q := s])
    ensures SameBut(host0.maps, host.maps, q) && host.bs == host0.bs
    ensures q in disk.maps && q in host.maps && Settled(host0.bs, host.maps[q])
    ensures StageOk(host0, host, disk, q, rid, plan)
    ensures TakesRuns(host0, disk0, host, disk, q, s.toks) && StageExact(host0, disk0, s.toks, busy, plan)
    ensures Staging(host0, disk0, q, s.toks, busy, rid) == Ok((host, disk, plan))
  {
    hide DevicesOk, Inv, InitPrefix, ReserveCopy, ExactPairs, RegionCarries, Seated, SameBut, SameMaps, StageExact,
      CopyExact, TakesOver, InUseSame, Settled;
    NewToDevices(gpu, host0, disk0, seqs, q, s);
    DevicesParts(gpu, host0, disk0, seqs);
    InitDevice(host0, seqs, q, s);
    InitDevice(disk0, seqs, q, s);
    host, disk, plan := InitPrefix(host0, q, s.toks).value.0, InitPrefix(disk0, q, s.toks).value.0, None;
    DevicesSeated(gpu, host0, disk0, host, disk, seqs[q := s], q);
    SeatedMapped(host0, host, seqs[q := s], q);
    SeatedMapped(disk0, disk, seqs[q := s], q);
    TakesTheRun(host0, host, q, s.toks);
    TakesTheRun(disk0, disk, q, s.toks);
    if busy && disk.Filled(q) >= host.Filled(q) + DISK_RECOMPUTE_THRESHOLD {
      ghost var host1 := host;
      DevicesParts(gpu, host, disk, seqs[q := s]);
      StageDevice(disk, host, seqs[q := s], q, rid);
      var staged := ReserveCopy(disk, host, q, s.toks, rid).value;
      host, plan := staged.0, staged.1;
      DevicesFrame(gpu, host1, disk, seqs[q := s], gpu, host, disk);
      SameMapsMeans(host1, host, seqs[q := s]);
      StageRuns(host0, disk0, host1, disk, q, s.toks, plan);
    } else {
      NoStage(host0, disk0, host, disk, q, s.toks, busy);
    }
  }

  /** The new sequence owns the longest run of its chunks that is cached, all of it filled, on both devices. */
  ghost predicate TakesRuns(host0: Manager, disk0: Manager, host: Manager, disk: Manager, q: SeqId, toks: seq<Token>) {
    TakesRun(host0, host, q, toks) && TakesRun(disk0, disk, q, toks)
  }

  ghost predicate TakesRun(m: Manager, m': Manager, q: SeqId, toks: seq<Token>) {
    var run := Hits(m, toks);
    q in m'.maps && m'.maps[q] == BlockMap(run, Offset(|run|, m.bs), Offset(|run|, m.bs))
  }

  lemma TakesTheRun(m: Manager, m': Manager, q: SeqId, toks: seq<Token>)
    requires TakesOver(m, m', q, toks)
    ensures TakesRun(m, m', q, toks)
  {
    hide Hits, CountFree, Offset;
  }

  /** What a backup plan holds: blocks of the same content, from the host to a new region of the disk. */
  ghost predicate BackupOk(host: Manager, disk0: Manager, disk: Manager, rid: RegionId,
                           plan: Option<(Region, seq<Entry>)>) {
    match plan
    case None => disk.regions == disk0.regions
    case Some((r, es)) =>
      r.id == rid && disk.regions == disk0.regions[rid := r.ids] && RegionCarries(disk, r) && ExactPairs(host, disk, r, es)
  }

  /** Releasing a sequence touches no block of a region. */
  lemma BackupKept(host: Manager, disk0: Manager, disk: Manager, seqs: map<SeqId, Sequence>, q: SeqId, all: bool,
                   rid: RegionId, plan: Option<(Region, seq<Entry>)>)
    requires Inv(disk, TextsOf(seqs), multiset{}) && BackupOk(host, disk0, disk, rid, plan)
    ensures FreeSeq(disk, q, all).Ok? && BackupOk(host, disk0, FreeSeq(disk, q, all).value, rid, plan)
  {
    hide Inv, FreeSeq, Gone;
    FreeDevice(disk, seqs, q, all);
    GoneMeans(disk, FreeSeq(disk, q, all).value, seqs, q);
    if plan.Some? {
      assert Step(disk, OpFree(q, all)) == FreeSeq(disk, q, all);
      StepKeepsRegion(disk, TextsOf(seqs), OpFree(q, all), rid);
    }
  }

  lemma GoneMeans(m: Manager, m': Manager, seqs: map<SeqId, Sequence>, q: SeqId)
    requires Gone(m, m', seqs, q)
    ensures m'.maps == m.maps - {q} && m'.regions == m.regions && m'.bs == m.bs
  {
    hide Inv;
  }

  /** What the removed sequence leaves in the caches: its filled blocks, or, if it forbids caching, none that
      nobody else holds. On the disk the blocks of the backup were reserved (`staged`) before. */
  ghost predicate CachesLeft(gpu0: Manager, host0: Manager, disk0: Manager, staged: Manager, gpu: Manager,
                             host: Manager, disk: Manager, q: SeqId, all: bool) {
    && Forgets(gpu0, gpu, q, all) && Forgets(host0, host, q, all) && Forgets(staged, disk, q, all)
    && staged.maps == disk0.maps && staged.table == disk0.table && InUseSame(disk0.pool, staged.pool)
  }

  /** The steps of `backup` and `remove_task`. */
  function Removing(gpu: Manager, host: Manager, disk: Manager, q: SeqId, s: Sequence,
                    rid: RegionId): Outcome<(Manager, Manager, Manager, Option<(Region, seq<Entry>)>)> {
    if host.Filled(q) > |s.toks| then Panic(OutOfBounds)
    else
      var (disk1, plan) :- ReserveCopy(host, disk, q, s.toks, rid);
      var gpu2 :- FreeSeq(gpu, q, s.disableCache);
      var host2 :- FreeSeq(host, q, s.disableCache);
      var disk2 :- FreeSeq(disk1, q, s.disableCache);
      Ok((gpu2, host2, disk2, plan))
  }

  /** All of `backup` and `remove_task`: the plan, exactly when there is one and what it covers, and what the
      three devices still find. */
  ghost predicate Retired(gpu0: Manager, host0: Manager, disk0: Manager, gpu: Manager, host: Manager, disk: Manager,
                          q: SeqId, s: Sequence, rid: RegionId, plan: Option<(Region, seq<Entry>)>) {
    && BackupOk(host0, disk0, disk, rid, plan) && CopyExact(host0, disk0, q, s.toks, plan)
    && (exists staged :: CachesLeft(gpu0, host0, disk0, staged, gpu, host, disk, q, s.disableCache))
    && Removing(gpu0, host0, disk0, q, s, rid) == Ok((gpu, host, disk, plan))
  }

  /** `backup` and `remove_task`: what the host has more than the disk gets reserved blocks on the disk,
      and the sequence gives its blocks back on all devices. */
  method Remove(gpu0: Manager, host0: Manager, disk0: Manager, seqs: map<SeqId, Sequence>, q: SeqId, rid: RegionId)
    returns (gpu: Manager, host: Manager, disk: Manager, plan: Option<(Region, seq<Entry>)>)
    requires DevicesOk(gpu0, host0, disk0, seqs) && q in seqs && rid !in disk0.regions
    ensures Gone(gpu0, gpu, seqs, q) && Gone(host0, host, seqs, q) && disk.maps == disk0.maps - {q}
    ensures disk.bs == disk0.bs
    ensures Inv(disk, TextsOf(seqs), multiset{})
    ensures Retired(gpu0, host0, disk0, gpu, host, disk, q, seqs[q], rid, plan)
  {
    hide DevicesOk, Inv, ReserveCopy, ExactPairs, RegionCarries, SameMaps, FreeSeq, Gone, CopyExact, Forgets, InUseSame;
    DevicesParts(gpu0, host0, disk0, seqs);
    StageDevice(host0, disk0, seqs, q, rid);
    var reserved := ReserveCopy(host0, disk0, q, seqs[q].toks, rid).value;
    var disk1 := reserved.0;
    plan := reserved.1;
    SameMapsMeans(disk0, disk1, seqs);
    var all := seqs[q].disableCache;
    FreeDevice(gpu0, seqs, q, all);
    FreeDevice(host0, seqs, q, all);
    FreeDevice(disk1, seqs, q, all);
    BackupKept(host0, disk0, disk1, seqs, q, all, rid, plan);
    ForgetsExactly(gpu0, TextsOf(seqs), q, all);
    ForgetsExactly(host0, TextsOf(seqs), q, all);
    ForgetsExactly(disk1, TextsOf(seqs), q, all);
    gpu, host, disk := FreeSeq(gpu0, q, all).value, FreeSeq(host0, q, all).value, FreeSeq(disk1, q, all).value;
    GoneInv(disk1, disk, seqs, q);
    assert CachesLeft(gpu0, host0, disk0, disk1, gpu, host, disk, q, all);
  }

  lemma GoneInv(m: Manager, m': Manager, seqs: map<SeqId, Sequence>, q: SeqId)
    requires Gone(m, m', seqs, q)
    ensures m'.maps == m.maps - {q} && m'.bs == m.bs && Inv(m', TextsOf(seqs), multiset{})
  {
    hide Inv;
  }

  // ---------------------------------------------------------------- when all is quiet

  /** No leak: with no task and no open region left, all blocks of all three devices are free. */
  lemma QuietDevices(gpu: Manager, host: Manager, disk: Manager, seqs: map<SeqId, Sequence>)
    requires DevicesOk(gpu, host, disk, seqs) && seqs == map[]
    requires gpu.regions == map[] && host.regions == map[] && disk.regions == map[]
    ensures AllFree(gpu) && AllFree(host) && AllFree(disk)
  {
    hide DevicesOk, AllFree;
    DevicesParts(gpu, host, disk, seqs);
    QuietDevice(gpu, TextsOf(seqs));
    QuietDevice(host, TextsOf(seqs));
    QuietDevice(disk, TextsOf(seqs));
  }

  /** Every block of the pool is in the free list, once. */
  ghost predicate AllFree(m: Manager) {
    multiset(m.pool.free) == multiset(seq(|m.pool.blocks|, i => i))
  }

  lemma QuietDevice(m: Manager, texts: Texts)
    requires Inv(m, texts, multiset{}) && texts == map[] && m.regions == map[]
    ensures AllFree(m)
  {
    hide PoolOk;
    MappedKnown(m, texts);
    assert m.maps == map[];
    NothingHeld(m);
    NoOwnersNoLeak(m.pool);
  }
}
