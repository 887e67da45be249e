/** The `useTradingViewWidget` hook with its mutable state: the surface node
    whose children and `data-loaded` attribute the effect and the cleanup
    update in place, the container handle whose `current` the caller binds,
    and the document that creates script elements. Each method is proved
    against the step it takes in the Loader model. */
module Hook {
  import opened Dom
  import opened Loader

  /** A `<div>` that the widget renders into. */
  class Surface {
    var children: seq<Node>
    var marker: Option<string>

    /** `document.createElement('div')`: no content, no marker. */
    constructor ()
      ensures State() == Clean
    {
      children := [];
      marker := None;
    }

    function State(): SurfaceState
      reads this
    {
      SurfaceState(children, marker)
    }
  }

  /** The ref object the hook returns; the caller binds `current`. */
  class ContainerRef {
    var current: Surface?

    /** `useRef(null)`: a handle that is not bound yet. */
    constructor ()
      ensures current == null
    {
      current := null;
    }
  }

  /** The document. `created` lists every script element it created, in
      order: the spy on `createElement` in the tests. */
  class Document {
    ghost var created: seq<Script>

    constructor ()
      ensures created == []
    {
      created := [];
    }

    /** `document.createElement('script')` followed by setting `src`,
        `async` and the inline text. */
    method CreateScript(src: string, async: bool, body: string) returns (s: Script)
      modifies this
      ensures s == Script(src, async, body)
      ensures created == old(created) + [s]
    {
      s := Script(src, async, body);
      created := created + [s];
    }
  }

  /** One mounted instance of the hook. */
  class WidgetHook {
    const ref: ContainerRef
    const doc: Document
    const stringify: Stringify
    /** The effect returned a cleanup, which unmount will run. */
    var registered: bool

    /** Mounting the hook creates its handle, unbound, with no cleanup. */
    constructor (doc: Document, stringify: Stringify)
      ensures fresh(ref) && ref.current == null && !registered
      ensures this.doc == doc && this.stringify == stringify
    {
      this.ref := new ContainerRef();
      this.doc := doc;
      this.stringify := stringify;
      this.registered := false;
    }

    /** What the tests can observe, as the Loader model sees it. */
    ghost function Observe(): Observed
      reads this, ref, ref.current, doc
    {
      Observed(if ref.current == null then None else Some(ref.current.State()), doc.created, registered)
    }

    /** The effect. With the handle unbound, or bound to a marked surface, it
        returns at once. Otherwise it replaces the surface's content with a
        region `height` px high, appends into it a new asynchronous script
        loading `scriptUrl` with the serialized configuration as its text,
        and marks the surface 'true'; only then does it register its cleanup. */
    method RunEffect(scriptUrl: string, config: Config, height: int)
      modifies this, ref.current, doc
      ensures ref.current == old(ref.current)
      ensures Observe() == Step(old(Observe()), Loader.RunEffect(Request(scriptUrl, config, height)), stringify)
    {
      var container := ref.current;
      if container == null {
        return;
      }
      if container.marker.Some? {
        assert doc.created + [] == doc.created;
        return;
      }
      container.children := [Region(height, [])];
      var script := doc.CreateScript(scriptUrl, true, stringify(config));
      assert container.children[0].inner + [ScriptElement(script)] == [ScriptElement(script)];
      container.children := [Region(height, container.children[0].inner + [ScriptElement(script)])];
      container.marker := Some(LoadedMark);
      registered := true;
      assert container.State() == Injected(Request(scriptUrl, config, height), stringify);
    }

    /** Unmount runs the registered cleanup, if there is one: a bound
        surface loses all its content and its marker attribute is deleted. */
    method Unmount()
      modifies this, ref.current
      ensures ref.current == old(ref.current)
      ensures Observe() == Step(old(Observe()), Loader.Unmount, stringify)
    {
      var container := ref.current;
      if registered && container != null {
        container.children := [];
        container.marker := None;
      }
      registered := false;
    }
  }

  /** A handle that nobody binds never gets a script
      (UseTradingViewWidget.test.tsx, "should not execute if container ref is null"). */
  method ScenarioUnbound(stringify: Stringify) returns (handle: ContainerRef, ghost created: seq<Script>)
    ensures handle.current == null && created == []
  {
    var doc := new Document();
    var hook := new WidgetHook(doc, stringify);
    hook.RunEffect("https://test.com/widget.js", [], 600);
    handle, created := hook.ref, doc.created;
  }

  /** Binding a fresh container injects one script with an empty payload, a
      600 px region and the marker 'true'; a second run adds nothing;
      unmounting empties the container and removes the marker. */
  method ScenarioLifecycle(stringify: Stringify)
    returns (injected: SurfaceState, ghost created: seq<Script>, unmounted: SurfaceState)
    requires StringifiesEmptyObject(stringify)
    ensures injected.marker == Some("true") && HasRegionOfHeight(injected.children, 600)
    ensures created == [Script("https://test.com/widget.js", true, "{}")]
    ensures unmounted.children == [] && unmounted.marker == None
  {
    var url := "https://test.com/widget.js";
    var doc := new Document();
    var hook := new WidgetHook(doc, stringify);
    var container := new Surface();
    hook.ref.current := container;
    hook.RunEffect(url, [], 600);
    EffectHeight(Clean, Request(url, [], 600), stringify, 600);
    injected := container.State();
    hook.RunEffect(url, [], 600);
    created := doc.created;
    hook.Unmount();
    unmounted := container.State();
  }

  /** A container whose marker is already set gets no script, keeps its
      marker, and is not cleared on unmount, since no cleanup was registered. */
  method ScenarioAlreadyLoaded(stringify: Stringify)
    returns (ghost created: seq<Script>, afterRun: SurfaceState, unmounted: SurfaceState)
    ensures created == []
    ensures afterRun == unmounted == SurfaceState([], Some("true"))
  {
    var doc := new Document();
    var hook := new WidgetHook(doc, stringify);
    var marked := new Surface();
    marked.marker := Some("true");
    hook.ref.current := marked;
    hook.RunEffect("https://test.com/widget.js", [], 600);
    created, afterRun := doc.created, marked.State();
    hook.Unmount();
    unmounted := marked.State();
  }

  /** A zero height reaches the region unchanged. */
  method ScenarioZeroHeight(stringify: Stringify) returns (injected: SurfaceState)
    ensures HasRegionOfHeight(injected.children, 0)
    ensures !HasRegionOfHeight(injected.children, 600)
  {
    var doc := new Document();
    var hook := new WidgetHook(doc, stringify);
    var zero := new Surface();
    hook.ref.current := zero;
    hook.RunEffect("https://test.com/widget.js", [], 0);
    EffectHeight(Clean, Request("https://test.com/widget.js", [], 0), stringify, 0);
    EffectHeight(Clean, Request("https://test.com/widget.js", [], 0), stringify, 600);
    injected := zero.State();
  }
}
