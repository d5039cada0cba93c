/**
 The API path router: a path is split on slashes and walked down the tree of handlers and, in step, the tree of API
 specifications.
 */
module Router {
  import opened Wrappers

  /** The JavaScript values the walk can meet. `props` holds every name for which `in` is true. */
  datatype Value = Undefined | Null | Str(text: string) | Fun(id: nat) | Obj(props: map<string, Value>)

  /** Reading a property; None is the TypeError of reading one from undefined or null. */
  function Get(v: Value, key: string): Option<Value> {
    match v
    case Undefined | Null => None
    case Obj(props) => Some(if key in props then props[key] else Undefined)
    case _ => Some(Undefined)
  }

  predicate HasProp(v: Value, key: string) {
    v.Obj? && key in v.props
  }

  // ---- splitting a path ----

  /** `path.split("/")`. */
  function Split(path: string): (parts: seq<string>)
    ensures parts != []
  {
    if path == "" then [""]
    else
      var rest := Split(path[1..]);
      if path[0] == '/' then [""] + rest else [[path[0]] + rest[0]] + rest[1..]
  }

  /** `.filter(Boolean)`. */
  function DropEmpty(parts: seq<string>): seq<string> {
    if parts == [] then [] else (if parts[0] == "" then [] else [parts[0]]) + DropEmpty(parts[1..])
  }

  function Segments(path: string): seq<string> {
    DropEmpty(Split(path))
  }

  function Slashes(n: nat): string {
    seq(n, _ => '/')
  }

  ghost predicate IsSegment(s: string) {
    s != "" && '/' !in s
  }

  /** Segments written out, the i-th one followed by pads[i] slashes. */
  ghost function Render(segs: seq<string>, pads: seq<nat>): string
    requires |pads| == |segs|
  {
    if segs == [] then "" else segs[0] + (Slashes(pads[0]) + Render(segs[1..], pads[1..]))
  }

  /** Neighbouring segments are kept apart by at least one slash; the end is free. */
  ghost predicate Separated(pads: seq<nat>) {
    forall i :: 0 <= i < |pads| - 1 ==> pads[i] > 0
  }

  ghost predicate Padding(path: string, segs: seq<string>, lead: nat, pads: seq<nat>) {
    |pads| == |segs| && Separated(pads) && path == Slashes(lead) + Render(segs, pads)
  }

  /** The path consists of these segments, with any number of slashes in front, between and behind. */
  ghost predicate Spells(path: string, segs: seq<string>) {
    (forall s <- segs :: IsSegment(s)) && exists lead: nat, pads: seq<nat> :: Padding(path, segs, lead, pads)
  }

  lemma {:induction false} SegmentsAfterSlashes(n: nat, path: string)
    ensures Segments(Slashes(n) + path) == Segments(path)
  {
    if n == 0 {
      assert Slashes(0) + path == path;
    } else {
      assert Slashes(n) + path == ['/'] + (Slashes(n - 1) + path);
      assert Split(Slashes(n) + path) == [""] + Split(Slashes(n - 1) + path);
      SegmentsAfterSlashes(n - 1, path);
    }
  }

  lemma {:induction false} SplitHead(seg: string, path: string)
    requires '/' !in seg && (path == "" || path[0] == '/')
    ensures Split(seg + path) == [seg] + Split(path)[1..] && Split(path)[0] == ""
  {
    if seg == "" {
      assert seg + path == path;
    } else {
      assert (seg + path)[1..] == seg[1..] + path;
      SplitHead(seg[1..], path);
      assert seg == [seg[0]] + seg[1..];
    }
  }

  lemma {:induction false} SegmentsHead(seg: string, path: string)
    requires IsSegment(seg) && (path == "" || path[0] == '/')
    ensures Segments(seg + path) == [seg] + Segments(path)
  {
    SplitHead(seg, path);
  }

  lemma {:induction false} SegmentsSlash(path: string)
    requires path != "" && path[0] == '/'
    ensures Segments(path) == Segments(path[1..])
  {
  }

  lemma {:induction false} MoreSlashes(path: string, segs: seq<string>, lead: nat, pads: seq<nat>)
    requires path != "" && path[0] == '/' && Padding(path[1..], segs, lead, pads)
    ensures Padding(path, segs, lead + 1, pads)
  {
    assert path == ['/'] + path[1..] && Slashes(lead + 1) == ['/'] + Slashes(lead);
  }

  lemma {:induction false} SegmentsOfRender(segs: seq<string>, pads: seq<nat>)
    requires |pads| == |segs| && Separated(pads) && forall s <- segs :: IsSegment(s)
    ensures Segments(Render(segs, pads)) == segs
  {
    if segs != [] {
      var rest := Render(segs[1..], pads[1..]);
      assert forall s <- segs[1..] :: s in segs;
      SegmentsOfRender(segs[1..], pads[1..]);
      SegmentsAfterSlashes(pads[0], rest);
      assert segs[0] in segs;
      SegmentsHead(segs[0], Slashes(pads[0]) + rest);
    }
  }

  lemma {:induction false} MoreSegments(seg: string, rest: string, segs: seq<string>, lead: nat, pads: seq<nat>)
    requires Padding(rest, segs, lead, pads) && (segs != [] ==> lead > 0)
    ensures Padding(seg + rest, [seg] + segs, 0, [lead] + pads)
  {
    assert ([lead] + pads)[1..] == pads && ([seg] + segs)[1..] == segs;
    assert Slashes(0) + (seg + rest) == seg + rest;
  }

  /** Every path is rendered by some padding of its segments. */
  lemma {:induction false} PaddingOf(path: string) returns (lead: nat, pads: seq<nat>)
    ensures Padding(path, Segments(path), lead, pads) && forall s <- Segments(path) :: IsSegment(s)
    ensures path != "" && path[0] == '/' ==> lead > 0
    decreases |path|
  {
    if path == "" {
      lead, pads := 0, [];
    } else if path[0] == '/' {
      lead, pads := PaddingOf(path[1..]);
      SegmentsSlash(path);
      MoreSlashes(path, Segments(path[1..]), lead, pads);
      lead := lead + 1;
    } else {
      var seg, rest := HeadSegment(path);
      SegmentsHead(seg, rest);
      lead, pads := PaddingOf(rest);
      MoreSegments(seg, rest, Segments(rest), lead, pads);
      lead, pads := 0, [lead] + pads;
    }
  }

  lemma {:induction false} HeadSegment(path: string) returns (seg: string, rest: string)
    requires path != "" && path[0] != '/'
    ensures IsSegment(seg) && path == seg + rest && (rest == "" || rest[0] == '/') && |rest| < |path|
  {
    if |path| == 1 || path[1] == '/' {
      seg, rest := path[..1], path[1..];
    } else {
      seg, rest := HeadSegment(path[1..]);
      seg := [path[0]] + seg;
    }
  }

  /** The segments of a path are exactly the pieces that spell it, whatever the padding. */
  lemma {:induction false} SegmentsIffSpells(path: string, segs: seq<string>)
    ensures Segments(path) == segs <==> Spells(path, segs)
  {
    if Segments(path) == segs {
      var lead, pads := PaddingOf(path);
    }
    if Spells(path, segs) {
      var lead: nat, pads: seq<nat> :| Padding(path, segs, lead, pads);
      SegmentsOfRender(segs, pads);
      SegmentsAfterSlashes(lead, Render(segs, pads));
    }
  }

  // ---- walking the trees ----

  /** NotFound is the silent early return, Invalid a thrown TypeError. */
  datatype Route = NotFound | Invalid | SysCall(name: string) | Found(handler: nat, spec: Value)

  predicate IsSys(segs: seq<string>) {
    |segs| == 2 && segs[0] == "sys"
  }

  function Walk(api: Value, spec: Value, segs: seq<string>): Route {
    if segs == [] then (if api.Fun? then Found(api.id, spec) else NotFound)
    else if !HasProp(api, segs[0]) then NotFound
    else
      var below := Get(spec, segs[0]);
      if below.None? then Invalid else Walk(api.props[segs[0]], below.value, segs[1..])
  }

  function RouteOf(apis: Value, specs: Value, path: string): Route {
    var segs := Segments(path);
    if IsSys(segs) then SysCall(segs[1]) else Walk(apis, specs, segs)
  }

  method ParseRequest(apis: Value, specs: Value, path: string) returns (route: Route)
    ensures route == RouteOf(apis, specs, path)
  {
    var segs := Segments(path);
    if IsSys(segs) {
      return SysCall(segs[1]);
    }
    var api, spec := apis, specs;
    assert segs[0..] == segs;
    for i := 0 to |segs|
      invariant Walk(api, spec, segs[i..]) == Walk(apis, specs, segs)
    {
      assert segs[i..][1..] == segs[i + 1..];
      if !HasProp(api, segs[i]) {
        return NotFound;
      }
      api := api.props[segs[i]];
      var below := Get(spec, segs[i]);
      if below.None? {
        return Invalid;
      }
      spec := below.value;
    }
    return if api.Fun? then Found(api.id, spec) else NotFound;
  }

  /** The handler that the walk of a peer's response channel finds: no system form, no specification. */
  function ChannelRouteOf(apis: Value, path: string): Option<nat> {
    match Descend(apis, Segments(path))
    case Some(Fun(h)) => Some(h)
    case _ => None
  }

  method ChannelRoute(apis: Value, path: string) returns (handler: Option<nat>)
    ensures handler == ChannelRouteOf(apis, path)
  {
    var segs := Segments(path);
    var api := apis;
    assert segs[0..] == segs;
    for i := 0 to |segs|
      invariant Descend(api, segs[i..]) == Descend(apis, segs)
    {
      assert segs[i..][1..] == segs[i + 1..];
      if !HasProp(api, segs[i]) {
        return None;
      }
      api := api.props[segs[i]];
    }
    return if api.Fun? then Some(api.id) else None;
  }

  /** The value a path leads to, through objects only. */
  function Descend(v: Value, segs: seq<string>): Option<Value> {
    if segs == [] then Some(v)
    else if HasProp(v, segs[0]) then Descend(v.props[segs[0]], segs[1..])
    else None
  }

  /** Every handler path also exists in the specification. */
  ghost predicate Matching(apis: Value, specs: Value) {
    forall segs :: Descend(apis, segs).Some? ==> Descend(specs, segs).Some?
  }

  lemma {:induction false} WalkOnMatching(apis: Value, specs: Value, segs: seq<string>)
    requires Matching(apis, specs)
    ensures Walk(apis, specs, segs) ==
            match Descend(apis, segs)
            case Some(Fun(h)) => Found(h, Descend(specs, segs).value)
            case _ => NotFound
  {
    if segs == [] {
      assert Descend(specs, []).Some?;
    } else if HasProp(apis, segs[0]) {
      var key := segs[0];
      assert [key][1..] == [];
      assert Descend(apis, [key]).Some?;
      assert HasProp(specs, key);
      forall more | Descend(apis.props[key], more).Some?
        ensures Descend(specs.props[key], more).Some?
      {
        assert ([key] + more)[1..] == more;
        assert Descend(apis, [key] + more).Some?;
      }
      WalkOnMatching(apis.props[key], specs.props[key], segs[1..]);
      assert Descend(apis, segs) == Descend(apis.props[key], segs[1..]);
    }
  }

  /** The router finds handler and specification exactly when the spelled path ends at a function; only the two-segment
      form under "sys" is answered without looking at the tree. */
  lemma {:induction false} RouteIff(apis: Value, specs: Value, path: string, segs: seq<string>)
    requires Matching(apis, specs) && Spells(path, segs)
    ensures RouteOf(apis, specs, path) ==
            if |segs| == 2 && segs[0] == "sys" then SysCall(segs[1])
            else match Descend(apis, segs)
                 case Some(Fun(h)) => Found(h, Descend(specs, segs).value)
                 case _ => NotFound
  {
    SegmentsIffSpells(path, segs);
    WalkOnMatching(apis, specs, segs);
  }

  /** The two walks agree wherever the path is not of the system form. */
  lemma {:induction false} ChannelAgrees(apis: Value, specs: Value, path: string)
    requires Matching(apis, specs)
    ensures (|Segments(path)| == 2 && Segments(path)[0] == "sys") ||
            forall h: nat :: ChannelRouteOf(apis, path) == Some(h) <==>
                             RouteOf(apis, specs, path).Found? && RouteOf(apis, specs, path).handler == h
  {
    WalkOnMatching(apis, specs, Segments(path));
  }

  /** Without a matching specification the walk still finds every handler whose specification chain never leads through
      undefined or null, and throws for exactly the others. */
  lemma {:induction false} WalkIff(api: Value, spec: Value, segs: seq<string>)
    ensures forall h: nat, s :: Walk(api, spec, segs) == Found(h, s) <==>
                           Descend(api, segs) == Some(Fun(h)) && SpecAt(spec, segs) == Some(s)
    ensures Walk(api, spec, segs).Invalid? <==>
            exists k :: 0 < k <= |segs| && Descend(api, segs[..k]).Some? && SpecAt(spec, segs[..k]).None?
  {
    if segs != [] {
      var key := segs[0];
      assert segs[..1][1..] == [];
      forall k | 0 < k <= |segs|
        ensures segs[..k][1..] == segs[1..][..k - 1]
      {
      }
      if HasProp(api, key) {
        var below := Get(spec, key);
        if below.None? {
          assert segs[..1] == [key] && Descend(api.props[key], []).Some?;
          assert Descend(api, segs[..1]).Some? && SpecAt(spec, segs[..1]).None?;
        } else {
          WalkIff(api.props[key], below.value, segs[1..]);
          if Walk(api, spec, segs).Invalid? {
            var k :| 0 < k <= |segs[1..]| && Descend(api.props[key], segs[1..][..k]).Some?
                     && SpecAt(below.value, segs[1..][..k]).None?;
            assert segs[..k + 1][1..] == segs[1..][..k];
            assert Descend(api, segs[..k + 1]).Some? && SpecAt(spec, segs[..k + 1]).None?;
          }
          forall k | 0 < k <= |segs| && Descend(api, segs[..k]).Some? && SpecAt(spec, segs[..k]).None?
            ensures Walk(api, spec, segs).Invalid?
          {
            assert segs[..k][1..] == segs[1..][..k - 1];
            assert SpecAt(spec, segs[..k]) == SpecAt(below.value, segs[1..][..k - 1]);
          }
        }
      }
    }
  }

  /** The specification a path leads to, None when reading it throws: a property is read from undefined or null. */
  function SpecAt(spec: Value, segs: seq<string>): Option<Value>
    decreases |segs|
  {
    if segs == [] then Some(spec)
    else if spec.Undefined? || spec.Null? then None
    else if spec.Obj? && segs[0] in spec.props then SpecAt(spec.props[segs[0]], segs[1..])
    else SpecAt(Undefined, segs[1..])
  }
}
