/**
 * The page-side registrar of `src/sw.js`: on a production page load it
 * registers the worker and pushes a newer, waiting worker into control with
 * a `SKIP_WAITING` message followed by a reload. The browser's events reach
 * it as method calls; the messages it posts and the reloads it performs are
 * recorded in order.
 */
module Registrar {
  import opened Wrappers

  /** Identifies a service worker instance. */
  type WorkerId = nat

  /** What `registerSW` and its listeners do to the outside world. */
  datatype Action = PostSkipWaiting(target: WorkerId) | Reload

  /** The outcome of `navigator.serviceWorker.register`: a rejection, or a registration and its waiting worker. */
  datatype Registration = RegisterFailed | Registered(waiting: Option<WorkerId>)

  /** `ServiceWorker.state`. */
  datatype WorkerState = Installing | Installed | Activating | Activated | Redundant

  /** `[PostSkipWaiting(w), Reload]` repeated `n` times: what `n` statechange listeners on `w` do. */
  function Promote(w: WorkerId, n: nat): (r: seq<Action>)
    ensures |r| == 2 * n
  {
    if n == 0 then [] else [PostSkipWaiting(w), Reload] + Promote(w, n - 1)
  }

  /** Each listener's pair is a message to `w` followed by a reload. */
  lemma {:induction false} PromoteShape(w: WorkerId, n: nat)
    ensures forall i :: 0 <= i < n ==> Promote(w, n)[2 * i] == PostSkipWaiting(w) && Promote(w, n)[2 * i + 1] == Reload
  {
    if n > 0 {
      PromoteShape(w, n - 1);
      var rest, r := Promote(w, n - 1), Promote(w, n);
      forall i | 1 <= i < n
        ensures r[2 * i] == PostSkipWaiting(w) && r[2 * i + 1] == Reload
      {
        var j := i - 1;
        assert r[2 * i] == rest[2 * j] && r[2 * i + 1] == rest[2 * j + 1];
      }
    }
  }

  class Registrar {
    /** `registerSW` attached its `load` listener. */
    var loadListener: bool
    /** The `load` listener attached an `updatefound` listener to the registration. */
    var updateListener: bool
    /** How many `statechange` listeners each worker carries. */
    var stateListeners: multiset<WorkerId>
    /** Messages posted and reloads performed, oldest first. */
    var actions: seq<Action>

    constructor ()
      ensures !loadListener && !updateListener && stateListeners == multiset{} && actions == []
    {
      loadListener := false;
      updateListener := false;
      stateListeners := multiset{};
      actions := [];
    }

    /**
     * `registerSW()`: outside a production build, or without service worker
     * support, it does nothing at all; otherwise it waits for the page's
     * `load` event.
     */
    method RegisterSW(production: bool, supported: bool)
      modifies this
      ensures loadListener == (old(loadListener) || (production && supported))
      ensures updateListener == old(updateListener) && stateListeners == old(stateListeners)
      ensures actions == old(actions)
    {
      if !production {
        return;
      }
      if !supported {
        return;
      }
      loadListener := true;
    }

    /**
     * The page's `load` event. A rejected registration is swallowed. A worker
     * already waiting gets exactly one `SKIP_WAITING` message, the page reloads
     * once, and no `updatefound` listener is attached; otherwise the listener
     * is attached and nothing is posted.
     */
    method OnLoad(reg: Registration)
      modifies this
      ensures stateListeners == old(stateListeners) && loadListener == old(loadListener)
      ensures !old(loadListener) || reg.RegisterFailed? ==>
                actions == old(actions) && updateListener == old(updateListener)
      ensures old(loadListener) && reg.Registered? && reg.waiting.Some? ==>
                actions == old(actions) + [PostSkipWaiting(reg.waiting.value), Reload] &&
                updateListener == old(updateListener)
      ensures old(loadListener) && reg.Registered? && reg.waiting.None? ==>
                actions == old(actions) && updateListener
    {
      if !loadListener {
        return;
      }
      match reg {
        case RegisterFailed =>
        case Registered(waiting) =>
          if waiting.Some? {
            actions := actions + [PostSkipWaiting(waiting.value)];
            actions := actions + [Reload];
            return;
          }
          updateListener := true;
      }
    }

    /**
     * The registration's `updatefound` event. With no installing worker it
     * does nothing; otherwise it attaches a `statechange` listener to that
     * worker. It never posts a message or reloads.
     */
    method OnUpdateFound(installing: Option<WorkerId>)
      modifies this
      ensures actions == old(actions)
      ensures updateListener == old(updateListener) && loadListener == old(loadListener)
      ensures stateListeners == if updateListener && installing.Some?
                                then old(stateListeners) + multiset{installing.value}
                                else old(stateListeners)
    {
      if !updateListener {
        return;
      }
      if installing.None? {
        return;
      }
      stateListeners := stateListeners + multiset{installing.value};
    }

    /**
     * A worker's `statechange` event. Each of its listeners posts
     * `SKIP_WAITING` to it and reloads when it has reached "installed" and the
     * page already has a controller; on a first install (no controller) it
     * does nothing.
     */
    method OnStateChange(w: WorkerId, state: WorkerState, controlled: bool)
      modifies this
      ensures loadListener == old(loadListener) && updateListener == old(updateListener)
      ensures stateListeners == old(stateListeners)
      ensures actions == old(actions) + (if state == Installed && controlled then Promote(w, stateListeners[w]) else [])
    {
      var n := stateListeners[w];
      ghost var before := actions;
      ghost var promote := state == Installed && controlled;
      var fired := 0;
      while fired < n
        invariant 0 <= fired <= n
        invariant loadListener == old(loadListener) && updateListener == old(updateListener)
        invariant stateListeners == old(stateListeners)
        invariant actions == before + (if promote then Promote(w, fired) else [])
      {
        if state == Installed && controlled {
          PromoteSnoc(w, fired);
          actions := actions + [PostSkipWaiting(w), Reload];
        }
        fired := fired + 1;
      }
    }
  }

  lemma {:induction false} PromoteSnoc(w: WorkerId, n: nat)
    ensures Promote(w, n + 1) == Promote(w, n) + [PostSkipWaiting(w), Reload]
  {
    if n > 0 {
      PromoteSnoc(w, n - 1);
    }
  }

  /** How many `SKIP_WAITING` messages a sequence of actions posts. */
  function Posts(s: seq<Action>): nat {
    if |s| == 0 then 0 else Posts(s[..|s| - 1]) + (if s[|s| - 1].PostSkipWaiting? then 1 else 0)
  }

  /** How many reloads a sequence of actions performs. */
  function Reloads(s: seq<Action>): nat {
    if |s| == 0 then 0 else Reloads(s[..|s| - 1]) + (if s[|s| - 1] == Reload then 1 else 0)
  }

  lemma {:induction false} CountsOfConcat(s: seq<Action>, t: seq<Action>)
    ensures Posts(s + t) == Posts(s) + Posts(t) && Reloads(s + t) == Reloads(s) + Reloads(t)
    decreases |t|
  {
    if |t| == 0 {
      assert s + t == s;
    } else {
      assert (s + t)[..|s + t| - 1] == s + t[..|t| - 1];
      CountsOfConcat(s, t[..|t| - 1]);
    }
  }

  /** Every listener that fires posts one message and performs one reload. */
  lemma {:induction false} PromoteCounts(w: WorkerId, n: nat)
    ensures Posts(Promote(w, n)) == n && Reloads(Promote(w, n)) == n
  {
    if n > 0 {
      var pair := [PostSkipWaiting(w), Reload];
      assert Promote(w, n) == pair + Promote(w, n - 1);
      PromoteCounts(w, n - 1);
      CountsOfConcat(pair, Promote(w, n - 1));
      assert pair[..1] == [PostSkipWaiting(w)];
      assert [PostSkipWaiting(w)][..0] == [];
      assert Posts([PostSkipWaiting(w)]) == 1 && Reloads([PostSkipWaiting(w)]) == 0;
      assert Posts(pair) == 1 && Reloads(pair) == 1;
    }
  }

  /**
   * A page opened while a newer worker waits: registration posts exactly one
   * `SKIP_WAITING` message, to that worker, and reloads exactly once; later
   * `updatefound` and `statechange` events post nothing because no listener
   * was attached.
   */
  method WaitingWorkerScenario(w: WorkerId, later: WorkerId)
  {
    var r := new Registrar();
    r.RegisterSW(true, true);
    r.OnLoad(Registered(Some(w)));
    assert r.actions == [PostSkipWaiting(w), Reload];
    r.OnUpdateFound(Some(later));
    r.OnStateChange(later, Installed, true);
    assert r.actions == [PostSkipWaiting(w), Reload];
    assert r.actions == Promote(w, 1);
    PromoteCounts(w, 1);
    assert Posts(r.actions) == 1 && Reloads(r.actions) == 1;
  }

  /**
   * An update discovered after load: the new worker is promoted when it
   * reaches "installed" under a controller, and not on a first install.
   */
  method UpdateScenario(w: WorkerId)
  {
    var first := new Registrar();
    first.RegisterSW(true, true);
    first.OnLoad(Registered(None));
    first.OnUpdateFound(Some(w));
    first.OnStateChange(w, Installed, false);
    assert first.actions == [];

    var update := new Registrar();
    update.RegisterSW(true, true);
    update.OnLoad(Registered(None));
    update.OnUpdateFound(None);
    update.OnUpdateFound(Some(w));
    update.OnStateChange(w, Installing, true);
    assert update.actions == [];
    update.OnStateChange(w, Installed, true);
    assert update.actions == [PostSkipWaiting(w), Reload];
  }

  /** Outside production nothing is registered, so no event leads to a message or a reload. */
  method DevelopmentScenario(w: WorkerId)
  {
    var r := new Registrar();
    r.RegisterSW(false, true);
    r.OnLoad(Registered(Some(w)));
    r.OnUpdateFound(Some(w));
    r.OnStateChange(w, Installed, true);
    assert r.actions == [];
  }
}
