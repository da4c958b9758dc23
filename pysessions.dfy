/**
 * Persistent Python sessions of `_handle_python_execution`: the variables a
 * run leaves behind are filtered and stored under the run's session id, and
 * a later persistent run in the same session starts from them. `exec` is a
 * parameter (it returns the namespace after the run, or `None` when the code
 * raised), and so are the built-ins the run applies to values (`Builtins`).
 */
module PySessions {
  import opened Wrappers
  import opened Text
  import opened Json
  import opened Router

  /** Names the execution namespace binds to Blender's own modules. */
  const Reserved: set<string> := {"bpy", "mathutils", "mcp"}

  /** The names of the namespace every run starts from (lines 367-373). */
  const HostNames: set<string> := {"bpy", "mathutils", "mcp", "__name__", "__file__"}

  /** A variable name a session may keep. */
  predicate Allowed(key: string) {
    !StartsWith(key, "_") && key !in Reserved
  }

  /**
   * The built-ins a run applies to the values it meets, with `None` for a call
   * that raises: `plain` is the test of lines 388-390 (not callable, not a
   * class, no `__module__`; `hasattr` passes on every exception other than
   * AttributeError), `isNone` is `is None`, and `str` is `str()`.
   */
  datatype Builtins<-V> = Builtins(plain: V -> Option<bool>, isNone: V -> bool, str: V -> Option<string>)

  /** The filter of lines 386-390: an allowed name bound to a plain value. */
  predicate Kept<V>(key: string, value: V, plain: V -> Option<bool>) {
    Allowed(key) && plain(value) == Some(true)
  }

  /** An allowed name whose value makes the filter raise. */
  predicate FilterRaises<V>(key: string, value: V, plain: V -> Option<bool>) {
    Allowed(key) && plain(value).None?
  }

  /**
   * The variables a persistent run saves from namespace `ns`, or `None` when
   * the filter raises on one of them and nothing is saved.
   */
  function SavedVars<V>(ns: map<string, V>, plain: V -> Option<bool>): (saved: Option<map<string, V>>)
    ensures saved.None? <==> exists k :: k in ns && FilterRaises(k, ns[k], plain)
    ensures saved.Some? ==> forall k :: k in saved.value <==> k in ns && Kept(k, ns[k], plain)
    ensures saved.Some? ==> forall k :: k in saved.value ==> saved.value[k] == ns[k]
  {
    if exists k :: k in ns && FilterRaises(k, ns[k], plain) then None
    else Some(map k | k in ns && Kept(k, ns[k], plain) :: ns[k])
  }

  /** The saving loop of lines 385-396, over the namespace's names in any order. */
  method SaveVars<V>(ns: map<string, V>, plain: V -> Option<bool>) returns (saved: Option<map<string, V>>)
    ensures saved == SavedVars(ns, plain)
  {
    var kept := map[];
    var todo := ns.Keys;
    while todo != {}
      invariant todo <= ns.Keys
      invariant forall k :: k in ns && k !in todo ==> !FilterRaises(k, ns[k], plain)
      invariant forall k :: k in kept <==> k in ns && k !in todo && Kept(k, ns[k], plain)
      invariant forall k :: k in kept ==> kept[k] == ns[k]
      decreases todo
    {
      var key :| key in todo;
      if Allowed(key) {
        var isPlain := plain(ns[key]);
        if isPlain.None? {
          assert FilterRaises(key, ns[key], plain);
          assert SavedVars(ns, plain).None?;
          return None;
        }
        if isPlain.value {
          kept := kept[key := ns[key]];
        }
      }
      todo := todo - {key};
    }
    ghost var all := SavedVars(ns, plain);
    assert forall k :: k in ns ==> !FilterRaises(k, ns[k], plain);
    assert all.Some? && kept.Keys == all.value.Keys;
    assert kept == all.value;
    saved := Some(kept);
  }

  /** No stored session holds a name that starts with `_` or shadows `bpy`, `mathutils` or `mcp`. */
  ghost predicate StoreAllowed<V>(store: map<Json, map<string, V>>) {
    forall sid, k :: sid in store && k in store[sid] ==> Allowed(k)
  }

  /** Saving what a run saved again keeps all of it. */
  lemma SavedVarsIdempotent<V>(ns: map<string, V>, plain: V -> Option<bool>)
    requires SavedVars(ns, plain).Some?
    ensures SavedVars(SavedVars(ns, plain).value, plain) == SavedVars(ns, plain)
  {
    var once := SavedVars(ns, plain).value;
    var twice := SavedVars(once, plain);
    assert forall k :: k in once ==> !FilterRaises(k, once[k], plain);
    assert twice.Some?;
    assert twice.value.Keys == once.Keys;
    assert twice.value == once;
  }

  /**
   * What a run reports besides its output: success, `str(__return__)` when
   * there is one, and the session's names after a persistent run.
   */
  datatype Report = Report(success: bool, returnValue: Option<string>, sessionVariables: Option<set<string>>)

  /** The report of a run whose `try` block raised (lines 423-437). */
  const RunRaised: Report := Report(false, None, None)

  /** The namespace a run starts from: the host names, updated with the session's variables when persistent. */
  function StartNamespace<V>(store: map<Json, map<string, V>>, request: PythonRequest, host: map<string, V>): map<string, V> {
    if Truthy(request.persistent) && request.sessionId in store then host + store[request.sessionId] else host
  }

  /**
   * The namespace after the code ran, or `None` when the code raised or, for
   * a persistent run, the session id is unhashable (the membership test of
   * line 376 raises TypeError).
   */
  function Executed<V>(store: map<Json, map<string, V>>, request: PythonRequest, host: map<string, V>,
                       exec: (Json, map<string, V>) -> Option<map<string, V>>): Option<map<string, V>>
  {
    if Truthy(request.persistent) && !Hashable(request.sessionId) then None
    else exec(request.code, StartNamespace(store, request, host))
  }

  /**
   * The `return_value` entry of lines 400-412: `Some(None)` when the code left
   * no `__return__` or left `None` there, `None` when `str` raises on it.
   */
  function ReturnText<V>(ns: map<string, V>, b: Builtins<V>): Option<Option<string>> {
    if "__return__" !in ns || b.isNone(ns["__return__"]) then Some(None)
    else match b.str(ns["__return__"])
      case None => None
      case Some(text) => Some(Some(text))
  }

  /** The report of a run that got past the save, with `names` the saved session's names. */
  function ReportOf<V>(ns: map<string, V>, b: Builtins<V>, names: Option<set<string>>): Report {
    match ReturnText(ns, b)
    case None => RunRaised
    case Some(shown) => Report(true, shown, names)
  }

  /**
   * One run of `_handle_python_execution` after its argument check (lines
   * 361-437), as the new store and the report. The session is replaced as
   * soon as the filter has run, so a report step that raises afterwards fails
   * the run with the session already replaced.
   */
  function RunPython<V>(store: map<Json, map<string, V>>, request: PythonRequest, host: map<string, V>,
                        exec: (Json, map<string, V>) -> Option<map<string, V>>, b: Builtins<V>)
    : (map<Json, map<string, V>>, Report)
  {
    match Executed(store, request, host, exec)
    case None => (store, RunRaised)
    case Some(ns) =>
      if !Truthy(request.persistent) then (store, ReportOf(ns, b, None))
      else match SavedVars(ns, b.plain)
        case None => (store, RunRaised)
        case Some(saved) => (store[request.sessionId := saved], ReportOf(ns, b, Some(saved.Keys)))
  }

  /**
   * A run changes at most its own session, and replaces it exactly when a
   * persistent run got through the code and the filter, whether or not the
   * run then succeeds; the run succeeds exactly when the code, the filter and
   * `str(__return__)` all returned, and a failed run reports nothing else.
   */
  lemma RunTouchesOwnSession<V>(store: map<Json, map<string, V>>, request: PythonRequest, host: map<string, V>,
                                exec: (Json, map<string, V>) -> Option<map<string, V>>, b: Builtins<V>)
    ensures var (after, report) := RunPython(store, request, host, exec, b);
      var ns := Executed(store, request, host, exec);
      var persistent := Truthy(request.persistent);
      var saved := if ns.Some? && persistent then SavedVars(ns.value, b.plain) else None;
      && (forall sid :: sid != request.sessionId ==> (sid in after <==> sid in store))
      && (forall sid :: sid != request.sessionId && sid in store ==> after[sid] == store[sid])
      && (saved.Some? ==> after == store[request.sessionId := saved.value])
      && (saved.None? ==> after == store)
      && (report.success <==> ns.Some? && (persistent ==> saved.Some?) && ReturnText(ns.value, b).Some?)
      && (report.success ==> report.returnValue == ReturnText(ns.value, b).value)
      && (report.sessionVariables.Some? <==> report.success && persistent)
      && (report.sessionVariables.Some? ==> saved.Some? && report.sessionVariables == Some(saved.value.Keys))
      && (!report.success ==> report == RunRaised)
  {
  }

  /** Runs keep every stored session free of reserved and underscore names. */
  lemma RunKeepsStoreAllowed<V>(store: map<Json, map<string, V>>, request: PythonRequest, host: map<string, V>,
                                exec: (Json, map<string, V>) -> Option<map<string, V>>, b: Builtins<V>)
    requires StoreAllowed(store)
    ensures StoreAllowed(RunPython(store, request, host, exec, b).0)
  {
  }

  /**
   * Restoring a session never shadows the host names: `bpy`, `mathutils`,
   * `mcp`, `__name__` and `__file__` keep the host's values, and every other
   * name comes from the session.
   */
  lemma RestoreKeepsHost<V>(store: map<Json, map<string, V>>, request: PythonRequest, host: map<string, V>)
    requires StoreAllowed(store)
    requires host.Keys == HostNames
    ensures var ns := StartNamespace(store, request, host);
      && (forall k :: k in host ==> k in ns && ns[k] == host[k])
      && (Truthy(request.persistent) && request.sessionId in store ==>
            forall k :: k in ns && k !in host ==> k in store[request.sessionId] && ns[k] == store[request.sessionId][k])
  {
    if Truthy(request.persistent) && request.sessionId in store {
      forall k | k in host
        ensures k !in store[request.sessionId]
      {
        assert k in HostNames;
        assert !Allowed(k);
      }
    }
  }

  /** `python_sessions`, the session store, updated in place by each run. */
  class Sessions<V> {
    var store: map<Json, map<string, V>>

    ghost predicate Valid()
      reads this
    {
      StoreAllowed(store)
    }

    constructor ()
      ensures Valid() && store == map[]
    {
      store := map[];
    }

    /**
     * A run of already checked arguments; `exec` runs the code on Blender's
     * main thread. The session is stored before the report is built, so a
     * report step that raises leaves the new session in place.
     */
    method Run(request: PythonRequest, host: map<string, V>,
               exec: (Json, map<string, V>) -> Option<map<string, V>>, b: Builtins<V>)
      returns (report: Report)
      requires Valid()
      modifies this
      ensures Valid()
      ensures (store, report) == RunPython(old(store), request, host, exec, b)
    {
      var persistent := Truthy(request.persistent);
      if persistent && !Hashable(request.sessionId) {
        return RunRaised;
      }
      var ns := host;
      if persistent && request.sessionId in store {
        ns := ns + store[request.sessionId];
      }
      var outcome := exec(request.code, ns);
      if outcome.None? {
        return RunRaised;
      }
      var after := outcome.value;
      var names := None;
      if persistent {
        var saved := SaveVars(after, b.plain);
        if saved.None? {
          return RunRaised;
        }
        store := store[request.sessionId := saved.value];
        RunKeepsStoreAllowed(old(store), request, host, exec, b);
        names := Some(store[request.sessionId].Keys);
      }
      var shown := None;
      if "__return__" in after && !b.isNone(after["__return__"]) {
        var text := b.str(after["__return__"]);
        if text.None? {
          return RunRaised;
        }
        shown := Some(text.value);
      }
      report := Report(true, shown, names);
    }
  }
}
