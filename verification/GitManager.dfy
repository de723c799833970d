/** The git server's manager itself: its fields, and each lock section and queue call as a method that
    refines a step of the transition system. */
module GitManager {
  import opened Core
  import opened GitServer

  class Manager {
    const maxRetries: nat
    var states: States
    var store: Store
    var items: seq<Key>
    var dirty: set<Key>
    var processing: set<Key>
    var delayed: set<Key>
    var jobs: Jobs
    var adders: Adders

    ghost function View(): Server
      reads this
    {
      Server(states, store, Queue(items, dirty, processing, delayed), jobs, adders)
    }

    /** Starts over a store: every valid repository in it is known and available. */
    constructor (maxRetries: nat, store: Store, origins: map<Key, string>)
      requires origins.Keys <= store.Keys
      ensures this.maxRetries == maxRetries && this.store == store && states.Keys == origins.Keys
      ensures Starting(View())
    {
      this.maxRetries, this.store := maxRetries, store;
      states := map key | key in origins :: State(origins[key], None, 0, true, 0, None, false);
      items, dirty, processing, delayed, jobs, adders := [], {}, {}, {}, map[], map[];
    }

    // ----- the work queue -----

    method QueueAdd(key: Key)
      modifies this`dirty, this`items
      ensures View() == old(View()).(queue := Added(old(View()).queue, key))
    {
      if key in dirty { return; }
      dirty := dirty + {key};
      if key in processing { return; }
      items := items + [key];
    }

    method QueueGet(w: nat)
      requires |items| > 0 && w !in jobs
      modifies this`dirty, this`items, this`processing, this`jobs
      ensures GetStep(old(View()), w, View())
    {
      var key := items[0];
      items, processing, dirty := items[1..], processing + {key}, dirty - {key};
      jobs := jobs[w := Job(key, Taken)];
    }

    method QueueDone(w: nat)
      requires w in jobs && jobs[w].phase.Finished?
      modifies this`items, this`processing, this`jobs
      ensures DoneStep(old(View()), w, View())
    {
      var key := jobs[w].key;
      processing, jobs := processing - {key}, jobs - {w};
      if key in dirty { items := items + [key]; }
    }

    /** The end of a delay. */
    method DelayFires(key: Key)
      requires key in delayed
      modifies this`dirty, this`items, this`delayed
      ensures DelayStep(old(View()), key, View())
    {
      delayed := delayed - {key};
      QueueAdd(key);
    }

    // ----- requests -----

    /** Accepts a sync request; request number a adds the key to the queue once the lock is released. */
    method Sync(key: Key, origin: string, a: nat) returns (accepted: bool)
      requires a !in adders
      modifies this`states, this`adders
      ensures SyncStep(old(View()), key, origin, a, View())
      ensures accepted <==> !(key in old(states) && old(states)[key].desired == Some(Fetching) && old(states)[key].pending)
      ensures accepted ==>
        Adds(adders, a, key) && key in states &&
        states[key].pending && states[key].desired == Some(Fetching) && states[key].origin == origin &&
        states[key].error == None && states[key].retries == 0
    {
      if key !in states { states := states[key := NEW]; }
      var s := states[key];
      if s.desired == Some(Fetching) && s.pending { return false; }
      s := s.(revision := s.revision + 1, desired := Some(Fetching), origin := origin, pending := true);
      s := s.(error := None, retries := 0);
      states, adders := states[key := s], adders[a := key];
      return true;
    }

    method Delete(key: Key, a: nat) returns (accepted: bool)
      requires a !in adders
      modifies this`states, this`adders
      ensures DeleteStep(old(View()), key, a, View())
      ensures accepted <==> key in old(states)
      ensures accepted ==>
        Adds(adders, a, key) && key in states &&
        states[key].pending && states[key].desired == Some(Deleting) &&
        states[key].error == None && states[key].retries == 0
    {
      if key !in states { return false; }
      var s := states[key];
      s := s.(revision := s.revision + 1, desired := Some(Deleting), pending := true);
      s := s.(error := None, retries := 0);
      states, adders := states[key := s], adders[a := key];
      return true;
    }

    /** What an accepted request does after it has released the lock. */
    method AddRequested(a: nat)
      requires a in adders
      modifies this`dirty, this`items, this`adders
      ensures AddStep(old(View()), a, View())
    {
      var key := adders[a];
      adders := adders - {a};
      QueueAdd(key);
    }

    // ----- processNext -----

    /** The first lock section. */
    method TakeSnapshot(w: nat)
      requires w in jobs && jobs[w].phase.Taken?
      modifies this`jobs
      ensures SnapStep(old(View()), w, View())
      ensures var key := old(jobs)[w].key;
        if key in states
        then jobs[w].phase == Working(Snapshot(states[key].desired, states[key].origin, states[key].revision))
        else jobs[w].phase == Finished
    {
      var key := jobs[w].key;
      if key !in states {
        jobs := jobs[w := Job(key, Finished)];
        return;
      }
      var s := states[key];
      jobs := jobs[w := Job(key, Working(Snapshot(s.desired, s.origin, s.revision)))];
    }

    /** The operation, which may have its effect on the store even when it fails. */
    method Operate(w: nat) returns (ok: bool, retryable: bool)
      requires w in jobs && jobs[w].phase.Working?
      modifies this`jobs, this`store
      ensures OperateStep(old(View()), w, ok, retryable, View())
      ensures ok && old(jobs)[w].phase.snap.action == Some(Fetching) ==> jobs[w].key in store
      ensures ok && old(jobs)[w].phase.snap.action == Some(Deleting) ==> jobs[w].key !in store
    {
      var key, snap := jobs[w].key, jobs[w].phase.snap;
      ok, retryable := *, *;
      var happened: bool := *;
      match snap.action {
        case Some(Fetching) => if ok || happened { store := store[key := snap.revision]; }
        case Some(Deleting) => if ok || happened { store := store - {key}; }
        case None => ok, retryable := false, false;
      }
      jobs := jobs[w := Job(key, Operated(snap, ok, retryable))];
    }

    /** The second lock section: a result counts only for the request that it was made for. */
    method Conclude(w: nat)
      requires w in jobs && jobs[w].phase.Operated? && jobs[w].key in states
      modifies this`jobs, this`states
      ensures ConcludeStep(old(View()), w, maxRetries, View())
      ensures var key, p := old(jobs)[w].key, old(jobs)[w].phase;
        var was, now := old(states)[key], states[key];
        var current := was.revision == p.snap.revision;
        (jobs[w].phase == Retrying <==> current && !p.ok && p.retryable && was.retries < maxRetries) &&
        (jobs[w].phase != Retrying ==> jobs[w].phase == Finished) &&
        (jobs[w].phase == Retrying ==> now.pending == was.pending && now.error == Some(true) && now.retries == was.retries + 1) &&
        (jobs[w].phase == Finished && current ==>
          !now.pending && now.error == (if p.ok then None else Some(p.retryable))) &&
        (!current ==> now == was.(available := now.available)) &&
        (now.available == if p.ok then p.snap.action == Some(Fetching) else was.available)
    {
      var key, p := jobs[w].key, jobs[w].phase;
      var current := states[key];
      if p.ok { current := current.(available := p.snap.action == Some(Fetching)); }
      if current.revision != p.snap.revision {
        states, jobs := states[key := current], jobs[w := Job(key, Finished)];
        return;
      }
      if p.ok {
        current := current.(error := None, retries := 0);
        states, jobs := states[key := current.(pending := false)], jobs[w := Job(key, Finished)];
        return;
      }
      current := current.(error := Some(p.retryable));
      if p.retryable && current.retries < maxRetries {
        states, jobs := states[key := current.(retries := current.retries + 1)], jobs[w := Job(key, Retrying)];
        return;
      }
      states, jobs := states[key := current.(pending := false)], jobs[w := Job(key, Finished)];
    }

    /** A retry is added to the queue after a delay. */
    method AddRateLimited(w: nat)
      requires w in jobs && jobs[w].phase.Retrying?
      modifies this`jobs, this`delayed
      ensures RequeueStep(old(View()), w, View())
    {
      delayed, jobs := delayed + {jobs[w].key}, jobs[w := Job(jobs[w].key, Finished)];
    }
  }
}
