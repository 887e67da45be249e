/** The widget loader's lifecycle as values: what one run of the effect and
    one cleanup do to a bound surface, and what a sequence of such calls
    does to what the tests observe (the container handle and the list of
    script elements the document created). */
module Loader {
  import opened Dom

  /** A JSON value, as a widget configuration may hold. */
  datatype Json =
    | JNull
    | JBool(b: bool)
    | JNumber(n: int)
    | JString(s: string)
    | JArray(items: seq<Json>)
    | JObject(members: seq<Member>)

  /** One property of a JSON object; objects keep insertion order. */
  datatype Member = Member(key: string, value: Json)

  /** A widget configuration: the members of a JSON object. */
  type Config = seq<Member>

  /** `JSON.stringify`, which the loader calls but does not define. */
  type Stringify = Config -> string

  /** The one fact about `JSON.stringify` the tests rely on. */
  predicate StringifiesEmptyObject(stringify: Stringify)
  {
    stringify([]) == "{}"
  }

  /** What the hook is called with: script URL, configuration, pixel height.
      Any integer height is accepted, zero and negative included. */
  datatype Request = Request(scriptUrl: string, config: Config, height: int)

  /** A surface node: its children and its `data-loaded` attribute
      (`None` when the attribute is absent). */
  datatype SurfaceState = SurfaceState(children: seq<Node>, marker: Option<string>)

  /** The value the loader writes into the marker. */
  const LoadedMark: string := "true"

  /** A node with no content and no marker, as `document.createElement('div')`
      returns it and as cleanup leaves it. */
  const Clean: SurfaceState := SurfaceState([], None)

  /** The marker is present, whatever its value. */
  predicate Marked(s: SurfaceState)
  {
    s.marker.Some?
  }

  /** The script element the loader creates for a request. */
  function ScriptFor(req: Request, stringify: Stringify): Script
  {
    Script(req.scriptUrl, true, stringify(req.config))
  }

  /** The surface after injection: its content replaced by one sized region
      holding the script, and the marker set. */
  function Injected(req: Request, stringify: Stringify): SurfaceState
  {
    SurfaceState([Region(req.height, [ScriptElement(ScriptFor(req, stringify))])], Some(LoadedMark))
  }

  /** One run of the effect on a bound surface. */
  function Effect(s: SurfaceState, req: Request, stringify: Stringify): (r: SurfaceState)
    ensures Marked(r)
    ensures |ScriptsIn(r.children)| == if Marked(s) then |ScriptsIn(s.children)| else 1
  {
    if Marked(s) then s
    else
      InjectedScripts(req, stringify);
      Injected(req, stringify)
  }

  /** The script elements one run of the effect on a bound surface creates. */
  function EffectCreates(s: SurfaceState, req: Request, stringify: Stringify): (r: seq<Script>)
    ensures |r| <= 1
    ensures r == [] <==> Marked(s)
  {
    if Marked(s) then [] else [ScriptFor(req, stringify)]
  }

  /** What the tests can observe: the handle's `current` (unbound or a
      surface) and every script element the document has created; and
      whether the effect has registered a cleanup for unmount to run. */
  datatype Observed = Observed(current: Option<SurfaceState>, created: seq<Script>, registered: bool)

  /** The calls a test makes: assign the handle's `current`, let the effect
      run with a request, unmount. */
  datatype Event =
    | Assign(surface: Option<SurfaceState>)
    | RunEffect(req: Request)
    | Unmount

  /** One call. The effect does nothing while the handle is unbound; a run
      that injects registers a cleanup, a run that returns early registers
      none. Unmount runs the registered cleanup, if any: it empties the bound
      surface and removes its marker. */
  function Step(o: Observed, e: Event, stringify: Stringify): Observed
  {
    match e
    case Assign(surface) => o.(current := surface)
    case RunEffect(req) =>
      (match o.current
       case None => o
       case Some(s) =>
         Observed(Some(Effect(s, req, stringify)), o.created + EffectCreates(s, req, stringify),
                  o.registered || !Marked(s)))
    case Unmount =>
      if o.registered && o.current.Some? then Observed(Some(Clean), o.created, false)
      else o.(registered := false)
  }

  /** A sequence of calls, first to last. */
  function Replay(o: Observed, events: seq<Event>, stringify: Stringify): Observed
    decreases |events|
  {
    if events == [] then o else Replay(Step(o, events[0], stringify), events[1..], stringify)
  }

  predicate NoAssign(events: seq<Event>)
  {
    forall i :: 0 <= i < |events| ==> !events[i].Assign?
  }

  predicate OnlyEffects(events: seq<Event>)
  {
    forall i :: 0 <= i < |events| ==> events[i].RunEffect?
  }

  /** The number of unmounts among the calls. */
  function Unmounts(events: seq<Event>): nat
  {
    if events == [] then 0 else (if events[0].Unmount? then 1 else 0) + Unmounts(events[1..])
  }

  /** One script is still to come: the handle is bound to an unmarked surface. */
  function Pending(o: Observed): nat
  {
    if o.current.Some? && !Marked(o.current.value) then 1 else 0
  }

  /** Marker and script go together: a marked surface holds exactly one
      script element and the marker says 'true'; an unmarked one holds none. */
  predicate Consistent(s: SurfaceState)
  {
    || (s.marker == Some(LoadedMark) && |ScriptsIn(s.children)| == 1)
    || (s.marker == None && ScriptsIn(s.children) == [])
  }

  predicate ConsistentView(current: Option<SurfaceState>)
  {
    current.None? || Consistent(current.value)
  }

  // ---------------------------------------------------------------------
  // One run of the effect

  /** The injected content holds exactly the requested script. */
  lemma InjectedScripts(req: Request, stringify: Stringify)
    ensures ScriptsIn(Injected(req, stringify).children) == [ScriptFor(req, stringify)]
  {
    var script := ScriptElement(ScriptFor(req, stringify));
    assert ScriptsIn([script]) == [ScriptFor(req, stringify)] by {
      assert [script][1..] == [];
    }
    var region := Region(req.height, [script]);
    assert [region][1..] == [];
  }

  /** On a bound, unmarked surface the effect creates one script whose `src`
      is the URL, which loads asynchronously and whose text is the serialized
      configuration; that script, and nothing else, ends up on the surface,
      inside the one region; the marker is 'true'. */
  lemma EffectInjects(s: SurfaceState, req: Request, stringify: Stringify)
    requires !Marked(s)
    ensures EffectCreates(s, req, stringify) == [Script(req.scriptUrl, true, stringify(req.config))]
    ensures ScriptsIn(Effect(s, req, stringify).children) == EffectCreates(s, req, stringify)
    ensures Effect(s, req, stringify).children
            == [Region(req.height, [ScriptElement(Script(req.scriptUrl, true, stringify(req.config)))])]
    ensures Effect(s, req, stringify).marker == Some(LoadedMark)
  {
    InjectedScripts(req, stringify);
  }

  /** The injected region is exactly the requested height and no other, for
      every integer height, zero and negative included. */
  lemma EffectHeight(s: SurfaceState, req: Request, stringify: Stringify, h: int)
    requires !Marked(s)
    ensures HasRegionOfHeight(Effect(s, req, stringify).children, h) <==> h == req.height
  {
    var script := ScriptElement(ScriptFor(req, stringify));
    assert !HasRegionOfHeight([script], h) by {
      assert [script][1..] == [];
    }
    assert [Region(req.height, [script])][1..] == [];
  }

  /** A present marker blocks the effect, whatever the request: nothing is
      created and the surface is left as it was. */
  lemma MarkerBlocksEffect(s: SurfaceState, req: Request, stringify: Stringify)
    requires Marked(s)
    ensures EffectCreates(s, req, stringify) == []
    ensures Effect(s, req, stringify) == s
  {
  }

  /** An empty configuration reaches the script as the text `{}`. */
  lemma EmptyConfigPayload(s: SurfaceState, url: string, height: int, stringify: Stringify)
    requires StringifiesEmptyObject(stringify)
    requires !Marked(s)
    ensures EffectCreates(s, Request(url, [], height), stringify) == [Script(url, true, "{}")]
  {
  }

  // ---------------------------------------------------------------------
  // Sequences of calls

  /** While the handle stays unbound, any number of effect runs and unmounts
      create nothing, register no cleanup and leave the handle unbound. */
  lemma {:induction false} UnboundStaysInert(o: Observed, events: seq<Event>, stringify: Stringify)
    requires o.current.None?
    requires NoAssign(events)
    ensures Replay(o, events, stringify).current.None?
    ensures Replay(o, events, stringify).created == o.created
    ensures Replay(o, events, stringify).registered ==> o.registered
    ensures !o.registered ==> Replay(o, events, stringify) == o
    decreases |events|
  {
    if events != [] {
      var o' := Step(o, events[0], stringify);
      assert o'.current.None? && o'.created == o.created && (o'.registered ==> o.registered);
      assert !o.registered ==> o' == o;
      assert NoAssign(events[1..]) by {
        forall i | 0 <= i < |events[1..]| ensures !events[1..][i].Assign? {
          assert events[1..][i] == events[i + 1];
        }
      }
      UnboundStaysInert(o', events[1..], stringify);
    }
  }

  /** On a marked surface, any number of effect runs, with any requests,
      create nothing and change nothing. */
  lemma {:induction false} MarkedStaysInert(o: Observed, events: seq<Event>, stringify: Stringify)
    requires o.current.Some? && Marked(o.current.value)
    requires OnlyEffects(events)
    ensures Replay(o, events, stringify) == o
  {
    if events != [] {
      MarkerBlocksEffect(o.current.value, events[0].req, stringify);
      assert Step(o, events[0], stringify) == o;
      assert OnlyEffects(events[1..]) by {
        forall i | 0 <= i < |events[1..]| ensures events[1..][i].RunEffect? {
          assert events[1..][i] == events[i + 1];
        }
      }
      MarkedStaysInert(o, events[1..], stringify);
    }
  }

  /** Idempotence: on a bound, unmarked surface, one or more effect runs
      create exactly one script, the one of the first request, leave the
      surface as the first run left it and leave a cleanup registered. */
  lemma {:induction false} InjectsOnce(s: SurfaceState, log: seq<Script>, registered: bool, events: seq<Event>, stringify: Stringify)
    requires !Marked(s)
    requires |events| > 0 && OnlyEffects(events)
    ensures Replay(Observed(Some(s), log, registered), events, stringify)
            == Observed(Some(Injected(events[0].req, stringify)), log + [ScriptFor(events[0].req, stringify)], true)
  {
    var o := Observed(Some(s), log, registered);
    var o' := Step(o, events[0], stringify);
    assert o' == Observed(Some(Injected(events[0].req, stringify)), log + [ScriptFor(events[0].req, stringify)], true);
    assert OnlyEffects(events[1..]) by {
      forall i | 0 <= i < |events[1..]| ensures events[1..][i].RunEffect? {
        assert events[1..][i] == events[i + 1];
      }
    }
    MarkedStaysInert(o', events[1..], stringify);
  }

  /** At most one script per binding lifecycle: while the handle stays
      bound, the calls only append to the document's scripts, and they
      append no more than one per unmount plus one if the surface is
      unmarked at the start. */
  lemma {:induction false} ScriptsPerBinding(o: Observed, events: seq<Event>, stringify: Stringify)
    requires o.current.Some?
    requires NoAssign(events)
    ensures o.created <= Replay(o, events, stringify).created
    ensures |Replay(o, events, stringify).created| <= |o.created| + Pending(o) + Unmounts(events)
    decreases |events|
  {
    if events != [] {
      var o' := Step(o, events[0], stringify);
      assert o'.current.Some?;
      assert o.created <= o'.created;
      assert |o'.created| + Pending(o') <= |o.created| + Pending(o) + (if events[0].Unmount? then 1 else 0);
      assert NoAssign(events[1..]) by {
        forall i | 0 <= i < |events[1..]| ensures !events[1..][i].Assign? {
          assert events[1..][i] == events[i + 1];
        }
      }
      ScriptsPerBinding(o', events[1..], stringify);
    }
  }

  /** No marker without a script and no script without a marker: every call
      keeps the surface consistent, as long as the handle is only ever bound
      to consistent surfaces (a fresh `div` is one). */
  lemma {:induction false} ConsistencyPreserved(o: Observed, events: seq<Event>, stringify: Stringify)
    requires ConsistentView(o.current)
    requires forall i :: 0 <= i < |events| && events[i].Assign? ==> ConsistentView(events[i].surface)
    ensures ConsistentView(Replay(o, events, stringify).current)
    decreases |events|
  {
    if events != [] {
      var o' := Step(o, events[0], stringify);
      if events[0].RunEffect? && o.current.Some? && !Marked(o.current.value) {
        InjectedScripts(events[0].req, stringify);
      }
      assert ConsistentView(o'.current);
      forall i | 0 <= i < |events[1..]| && events[1..][i].Assign?
        ensures ConsistentView(events[1..][i].surface)
      {
        assert events[1..][i] == events[i + 1];
      }
      ConsistencyPreserved(o', events[1..], stringify);
    }
  }

  /** Teardown: after an effect run and an unmount, a surface the run
      injected into has no children and no marker at all (not a marker
      saying 'false'), so a fresh one is back to exactly its state before
      binding. A surface that was already marked gets no cleanup from that
      run and is left as it was, unless an earlier injection's cleanup is
      still registered. */
  lemma TeardownRestores(s: SurfaceState, log: seq<Script>, registered: bool, req: Request, stringify: Stringify)
    ensures
      var after := Replay(Observed(Some(s), log, registered), [RunEffect(req), Unmount], stringify).current;
      && after == Some(if Marked(s) && !registered then s else Clean)
      && (!Marked(s) ==> after.value.children == [] && after.value.marker == None)
      && (s == Clean ==> after == Some(s))
  {
    var events := [RunEffect(req), Unmount];
    var o1 := Step(Observed(Some(s), log, registered), events[0], stringify);
    assert events[1..] == [Unmount];
    assert Replay(o1, [Unmount], stringify) == Step(o1, Unmount, stringify);
  }

  /** A surface torn down starts clean: the next effect run injects again,
      with the new request. */
  lemma RebindAfterTeardown(s: SurfaceState, log: seq<Script>, registered: bool, r1: Request, r2: Request, stringify: Stringify)
    requires !Marked(s)
    ensures Replay(Observed(Some(s), log, registered), [RunEffect(r1), Unmount, RunEffect(r2)], stringify)
            == Observed(Some(Injected(r2, stringify)), log + [ScriptFor(r1, stringify), ScriptFor(r2, stringify)], true)
  {
    var events := [RunEffect(r1), Unmount, RunEffect(r2)];
    var o1 := Step(Observed(Some(s), log, registered), events[0], stringify);
    var o2 := Step(o1, events[1], stringify);
    var o3 := Step(o2, events[2], stringify);
    assert events[1..][1..] == [RunEffect(r2)];
    assert Replay(o2, [RunEffect(r2)], stringify) == o3;
  }

  /** The scenario of the test suite: a dark-theme English configuration at
      600 px on a fresh container yields one asynchronous script with the
      given URL carrying the serialized configuration, a 600 px region and
      the marker 'true'; a second run adds no script. */
  lemma InjectionScenario(stringify: Stringify, log: seq<Script>)
    ensures
      var url := "https://s3.tradingview.com/test-widget.js";
      var config := [Member("colorTheme", JString("dark")), Member("locale", JString("en"))];
      var req := Request(url, config, 600);
      var o := Replay(Observed(Some(Clean), log, false), [RunEffect(req), RunEffect(req)], stringify);
      && o.created == log + [Script(url, true, stringify(config))]
      && o.current.Some?
      && o.current.value.marker == Some("true")
      && HasRegionOfHeight(o.current.value.children, 600)
  {
    var url := "https://s3.tradingview.com/test-widget.js";
    var config := [Member("colorTheme", JString("dark")), Member("locale", JString("en"))];
    var req := Request(url, config, 600);
    InjectsOnce(Clean, log, false, [RunEffect(req), RunEffect(req)], stringify);
    EffectHeight(Clean, req, stringify, 600);
  }
}
