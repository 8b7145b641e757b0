// InstallerPainter::Impl: a LIFO stack of clips whose rounded entries point at
// layers owned by a cache that evicts idle keys and is emptied on device loss.
// Drawing itself is left out; every creation step and allocation may fail.
//
// A layer is named by the number of its creation, so that a pointer to a freed
// layer is a number the cache no longer holds.
module ClipStack {
  import opened Options

  const IDLE_CLIP_CACHE_SIZE: nat := 8

  type Layer = nat

  datatype Rect = Rect(left: int, top: int, right: int, bottom: int)
  {
    predicate NonEmpty() {
      right > left && bottom > top
    }
  }

  // std::clamp(radius, 0, half of the shorter side)
  function Clamped(radius: real, bounds: Rect): real {
    var width, height := bounds.right - bounds.left, bounds.bottom - bounds.top;
    var limit := (if width < height then width else height) as real / 2.0;
    if radius < 0.0 then 0.0 else if radius > limit then limit else radius
  }

  // One cached geometry and the pool of layers for its peak nesting depth.
  datatype RoundedClip = RoundedClip(bounds: Rect, radius: real, layers: seq<Layer>)

  datatype ClipEntry = AxisAligned | Rounded(layer: Layer)

  // ------------------------------------------------------------------- the cache

  predicate IsActive(clip: RoundedClip, active: set<Layer>) {
    exists l :: l in clip.layers && l in active
  }

  predicate HasKey(clip: RoundedClip, bounds: Rect, radius: real) {
    clip.bounds == bounds && clip.radius == radius
  }

  // Index of the first clip with this key, or the size of the cache.
  function FindKey(cache: seq<RoundedClip>, bounds: Rect, radius: real): (i: nat)
    ensures i <= |cache|
    ensures i < |cache| ==> HasKey(cache[i], bounds, radius)
    ensures i == |cache| ==> forall k :: 0 <= k < |cache| ==> !HasKey(cache[k], bounds, radius)
  {
    if cache == [] then 0
    else if HasKey(cache[0], bounds, radius) then 0
    else
      var rest := FindKey(cache[1..], bounds, radius);
      assert forall k :: 1 <= k < |cache| ==> cache[k] == cache[1..][k - 1];
      1 + rest
  }

  // Index of the first clip without an active layer, or the size of the cache.
  function FindIdle(cache: seq<RoundedClip>, active: set<Layer>): (i: nat)
    ensures i <= |cache|
    ensures i < |cache| ==> !IsActive(cache[i], active)
    ensures i == |cache| ==> forall k :: 0 <= k < |cache| ==> IsActive(cache[k], active)
  {
    if cache == [] then 0
    else if !IsActive(cache[0], active) then 0
    else
      var rest := FindIdle(cache[1..], active);
      assert forall k :: 1 <= k < |cache| ==> cache[k] == cache[1..][k - 1];
      1 + rest
  }

  // Index of the first inactive layer of a pool, or its size.
  function FindFree(layers: seq<Layer>, active: set<Layer>): (i: nat)
    ensures i <= |layers|
    ensures i < |layers| ==> layers[i] !in active
    ensures i == |layers| ==> forall k :: 0 <= k < |layers| ==> layers[k] in active
  {
    if layers == [] then 0
    else if layers[0] !in active then 0
    else
      var rest := FindFree(layers[1..], active);
      assert forall k :: 1 <= k < |layers| ==> layers[k] == layers[1..][k - 1];
      1 + rest
  }

  ghost predicate KeysDistinct(cache: seq<RoundedClip>) {
    forall i, j :: 0 <= i < j < |cache| ==> !HasKey(cache[i], cache[j].bounds, cache[j].radius)
  }

  // Every active layer is owned by the cache, which owns no layer yet to be created.
  ghost predicate CacheOk(cache: seq<RoundedClip>, active: set<Layer>, next: Layer) {
    && KeysDistinct(cache)
    && (forall l :: l in active ==> Owned(cache, l))
    && (forall i, l :: 0 <= i < |cache| && l in cache[i].layers ==> l < next)
  }

  ghost predicate Owned(cache: seq<RoundedClip>, l: Layer) {
    exists i :: 0 <= i < |cache| && l in cache[i].layers
  }

  // The outcome of roundedClip(): the cache, and the place of the clip in it.
  datatype Found = Found(cache: seq<RoundedClip>, index: Option<nat>)

  function RoundedClipFor(cache: seq<RoundedClip>, active: set<Layer>, bounds: Rect, radius: real,
                          geometry: bool, memory: bool): Found
  {
    var known := FindKey(cache, bounds, radius);
    var clip := RoundedClip(bounds, radius, []);
    var idle := FindIdle(cache, active);
    if known < |cache| then Found(cache, Some(known))
    else if !geometry then Found(cache, None)
    else if |cache| >= IDLE_CLIP_CACHE_SIZE && idle < |cache| then Found(cache[idle := clip], Some(idle))
    else if !memory then Found(cache, None)
    else Found(cache + [clip], Some(|cache|))
  }

  lemma RoundedClipKeepsCache(cache: seq<RoundedClip>, active: set<Layer>, next: Layer,
                              bounds: Rect, radius: real, geometry: bool, memory: bool)
    requires CacheOk(cache, active, next)
    ensures var found := RoundedClipFor(cache, active, bounds, radius, geometry, memory);
            && CacheOk(found.cache, active, next)
            && match found.index {
                 case None => true
                 case Some(i) => i < |found.cache| && HasKey(found.cache[i], bounds, radius)
               }
  {
    var found := RoundedClipFor(cache, active, bounds, radius, geometry, memory);
    forall l | l in active
      ensures Owned(found.cache, l)
    {
      var i :| 0 <= i < |cache| && l in cache[i].layers;
      assert IsActive(cache[i], active);
      assert l in found.cache[i].layers;
    }
  }

  // The cache after a layer has been created for one of its clips.
  function WithLayer(cache: seq<RoundedClip>, i: nat, l: Layer): seq<RoundedClip>
    requires i < |cache|
  {
    cache[i := cache[i].(layers := cache[i].layers + [l])]
  }

  lemma WithLayerKeepsCache(cache: seq<RoundedClip>, active: set<Layer>, next: Layer, i: nat)
    requires CacheOk(cache, active, next) && i < |cache|
    ensures CacheOk(WithLayer(cache, i, next), active, next + 1)
    ensures Owned(WithLayer(cache, i, next), next) && next !in active
  {
    var cache' := WithLayer(cache, i, next);
    forall l | l in active
      ensures Owned(cache', l) && l < next
    {
      var k :| 0 <= k < |cache| && l in cache[k].layers;
      assert l in cache'[k].layers;
    }
    assert next in cache'[i].layers;
  }

  // ------------------------------------------------------------------ its size

  ghost function Upto(n: nat): (s: set<int>)
    ensures |s| == n && forall i :: i in s <==> 0 <= i < n
  {
    if n == 0 then {} else Upto(n - 1) + {n - 1}
  }

  ghost function ActiveKeys(cache: seq<RoundedClip>, active: set<Layer>): set<int> {
    set i | i in Upto(|cache|) && IsActive(cache[i], active)
  }

  lemma SubsetSize(a: set<int>, b: set<int>)
    requires a <= b
    ensures |a| <= |b|
  {
    assert b == a + (b - a);
  }

  lemma FewerActiveKeys(cache: seq<RoundedClip>, active: set<Layer>, active': set<Layer>)
    requires active' <= active
    ensures |ActiveKeys(cache, active')| <= |ActiveKeys(cache, active)|
  {
    SubsetSize(ActiveKeys(cache, active'), ActiveKeys(cache, active));
  }

  ghost predicate SizeOk(cache: seq<RoundedClip>, active: set<Layer>, peak: nat) {
    && |ActiveKeys(cache, active)| <= peak
    && (|cache| <= IDLE_CLIP_CACHE_SIZE || |cache| <= peak + 1)
  }

  lemma IdleReplacementKeepsActive(cache: seq<RoundedClip>, active: set<Layer>, i: nat, clip: RoundedClip)
    requires i < |cache| && !IsActive(cache[i], active) && clip.layers == []
    ensures ActiveKeys(cache[i := clip], active) == ActiveKeys(cache, active)
  {
    assert !IsActive(clip, active);
  }

  lemma AppendKeepsActive(cache: seq<RoundedClip>, active: set<Layer>, clip: RoundedClip)
    requires clip.layers == []
    ensures ActiveKeys(cache + [clip], active) == ActiveKeys(cache, active)
  {
    assert !IsActive(clip, active);
    forall i | 0 <= i < |cache|
      ensures (cache + [clip])[i] == cache[i]
    {
    }
  }

  lemma AllActive(cache: seq<RoundedClip>, active: set<Layer>)
    requires forall k :: 0 <= k < |cache| ==> IsActive(cache[k], active)
    ensures |ActiveKeys(cache, active)| == |cache|
  {
    assert ActiveKeys(cache, active) == Upto(|cache|);
  }

  lemma RoundedClipKeepsSize(cache: seq<RoundedClip>, active: set<Layer>, peak: nat,
                             bounds: Rect, radius: real, geometry: bool, memory: bool)
    requires SizeOk(cache, active, peak)
    ensures SizeOk(RoundedClipFor(cache, active, bounds, radius, geometry, memory).cache, active, peak)
  {
    var clip, idle := RoundedClip(bounds, radius, []), FindIdle(cache, active);
    if idle < |cache| {
      IdleReplacementKeepsActive(cache, active, idle, clip);
    } else {
      AllActive(cache, active);
    }
    AppendKeepsActive(cache, active, clip);
  }

  lemma WithLayerKeepsSize(cache: seq<RoundedClip>, active: set<Layer>, peak: nat, i: nat, l: Layer)
    requires SizeOk(cache, active, peak) && i < |cache| && l !in active
    ensures SizeOk(WithLayer(cache, i, l), active, peak)
  {
    var cache' := WithLayer(cache, i, l);
    forall k | 0 <= k < |cache|
      ensures IsActive(cache'[k], active) <==> IsActive(cache[k], active)
    {
    }
    assert ActiveKeys(cache', active) == ActiveKeys(cache, active);
  }

  // ------------------------------------------------------------------- the stack

  // The active layers are exactly those on the stack, each of them once.
  ghost predicate StackOk(clips: seq<ClipEntry>, active: set<Layer>) {
    && (forall k :: 0 <= k < |clips| && clips[k].Rounded? ==> clips[k].layer in active)
    && (forall j, k :: 0 <= j < k < |clips| && clips[j].Rounded? ==> clips[j] != clips[k])
    && (forall l :: l in active ==> Rounded(l) in clips)
  }

  lemma PushedStackOk(clips: seq<ClipEntry>, active: set<Layer>, l: Layer)
    requires StackOk(clips, active) && l !in active
    ensures StackOk(clips + [Rounded(l)], active + {l})
  {
    var clips' := clips + [Rounded(l)];
    forall m | m in active + {l}
      ensures Rounded(m) in clips'
    {
      assert clips'[|clips|] == Rounded(l);
      assert m != l ==> Rounded(m) in clips;
    }
  }

  function Popped(active: set<Layer>, entry: ClipEntry): set<Layer> {
    if entry.Rounded? then active - {entry.layer} else active
  }

  lemma PoppedStackOk(clips: seq<ClipEntry>, active: set<Layer>)
    requires StackOk(clips, active) && clips != []
    ensures StackOk(clips[..|clips| - 1], Popped(active, clips[|clips| - 1]))
  {
    var last := |clips| - 1;
    assert clips == clips[..last] + [clips[last]];
  }

  // ------------------------------------------------------------------- the painter

  // peak is the greatest number of keys that were active at once; device holds
  // what is pushed on the render target between its BeginDraw and its EndDraw.
  datatype State = State(
    clips: seq<ClipEntry>, cache: seq<RoundedClip>, active: set<Layer>, next: Layer,
    drawing: bool, target: bool, brush: bool, failed: bool,
    peak: nat, device: seq<ClipEntry>)
  {
    predicate Ready() {
      drawing && target && brush && !failed
    }
  }

  const FRESH := State([], [], {}, 0, false, false, false, false, 0, [])

  ghost predicate Inv(s: State) {
    && CacheOk(s.cache, s.active, s.next)
    && SizeOk(s.cache, s.active, s.peak)
    && StackOk(s.clips, s.active)
    && s.device == s.clips
    && (s.drawing ==> s.target && s.brush)
    && (!s.drawing ==> s.clips == [])
  }

  function Pop(s: State): State
    requires s.clips != []
  {
    var last := |s.clips| - 1;
    s.(clips := s.clips[..last], active := Popped(s.active, s.clips[last]),
       device := if s.device == [] then [] else s.device[..|s.device| - 1])
  }

  function PopAll(s: State): State
    decreases |s.clips|
  {
    if s.clips == [] then s else PopAll(Pop(s))
  }

  function WithoutLayers(cache: seq<RoundedClip>): (r: seq<RoundedClip>)
    ensures |r| == |cache| && forall i :: 0 <= i < |r| ==> r[i] == cache[i].(layers := [])
  {
    if cache == [] then [] else [cache[0].(layers := [])] + WithoutLayers(cache[1..])
  }

  function DiscardTarget(s: State): State {
    s.(cache := WithoutLayers(s.cache), brush := false, target := false)
  }

  // Which of the resources that begin() may have to create it gets.
  datatype Opening = Opening(arguments: bool, factories: bool, target: bool, brush: bool, bound: bool)

  function Begin(s: State, o: Opening): State {
    if s.drawing then s.(failed := true)
    else if !o.arguments || !o.factories || !(s.target || o.target) then s.(failed := true)
    else if !(s.brush || o.brush) || !o.bound then DiscardTarget(s.(failed := true))
    else s.(failed := false, target := true, brush := true, drawing := true, clips := [], device := [])
  }

  function End(s: State, drawn: bool): State {
    if !s.drawing then s.(failed := true)
    else
      var s' := PopAll(s).(drawing := false, failed := s.failed || !drawn);
      if drawn then s' else DiscardTarget(s')
  }

  function PushClip(s: State, memory: bool): State {
    if !s.Ready() then s
    else if !memory then s.(failed := true)
    else s.(clips := s.clips + [AxisAligned], device := s.device + [AxisAligned])
  }

  // Which of the steps of pushRoundedClip succeed.
  datatype Steps = Steps(geometry: bool, cacheMemory: bool, layer: bool, poolMemory: bool, stackMemory: bool)

  // A radius that is not finite is None.
  ghost function PushRoundedClip(s: State, bounds: Rect, radius: Option<real>, steps: Steps): State {
    if !s.Ready() then s
    else if radius.None? then s.(failed := true)
    else if !bounds.NonEmpty() then PushClip(s, steps.stackMemory)
    else
      var found := RoundedClipFor(s.cache, s.active, bounds, Clamped(radius.value, bounds),
                                  steps.geometry, steps.cacheMemory);
      if found.index.None? then s.(cache := found.cache, failed := true)
      else PushLayer(s.(cache := found.cache), found.index.value, steps)
  }

  ghost function PushLayer(s: State, i: nat, steps: Steps): State {
    if i >= |s.cache| then s
    else
      var free := FindFree(s.cache[i].layers, s.active);
      if free < |s.cache[i].layers| then Activate(s, s.cache[i].layers[free], steps.stackMemory)
      else if !steps.layer || !steps.poolMemory then s.(failed := true)
      else Activate(s.(cache := WithLayer(s.cache, i, s.next), next := s.next + 1), s.next, steps.stackMemory)
  }

  ghost function Activate(s: State, l: Layer, memory: bool): State {
    if !memory then s.(failed := true)
    else
      var active := s.active + {l};
      var keys := |ActiveKeys(s.cache, active)|;
      s.(clips := s.clips + [Rounded(l)], device := s.device + [Rounded(l)], active := active,
         peak := if keys > s.peak then keys else s.peak)
  }

  function PopClip(s: State): State {
    if s.drawing && s.target && s.clips != [] then Pop(s) else s
  }

  // ------------------------------------------------------- every call keeps Inv

  lemma PopKeepsInv(s: State)
    requires Inv(s) && s.clips != []
    ensures Inv(Pop(s))
  {
    PoppedStackOk(s.clips, s.active);
    FewerActiveKeys(s.cache, s.active, Pop(s).active);
  }

  lemma {:induction false} PopAllKeepsInv(s: State)
    requires Inv(s)
    ensures Inv(PopAll(s)) && PopAll(s).clips == [] && PopAll(s).active == {}
    ensures PopAll(s) == s.(clips := [], device := [], active := {})
    decreases |s.clips|
  {
    if s.clips == [] {
      assert s.active == {};
    } else {
      PopKeepsInv(s);
      PopAllKeepsInv(Pop(s));
    }
  }

  lemma DiscardKeepsInv(s: State)
    requires Inv(s) && !s.drawing
    ensures Inv(DiscardTarget(s))
  {
    assert s.active == {};
    assert ActiveKeys(WithoutLayers(s.cache), {}) == {};
  }

  lemma ActivateKeepsInv(s: State, l: Layer, memory: bool)
    requires Inv(s) && s.Ready() && l !in s.active && Owned(s.cache, l)
    ensures Inv(Activate(s, l, memory))
  {
    PushedStackOk(s.clips, s.active, l);
  }

  lemma PushLayerKeepsInv(s: State, i: nat, steps: Steps)
    requires Inv(s) && s.Ready() && i < |s.cache|
    ensures Inv(PushLayer(s, i, steps))
  {
    var free := FindFree(s.cache[i].layers, s.active);
    if free < |s.cache[i].layers| {
      ActivateKeepsInv(s, s.cache[i].layers[free], steps.stackMemory);
    } else if steps.layer && steps.poolMemory {
      WithLayerKeepsCache(s.cache, s.active, s.next, i);
      WithLayerKeepsSize(s.cache, s.active, s.peak, i, s.next);
      ActivateKeepsInv(s.(cache := WithLayer(s.cache, i, s.next), next := s.next + 1), s.next, steps.stackMemory);
    }
  }

  lemma PushRoundedKeepsInv(s: State, bounds: Rect, radius: Option<real>, steps: Steps)
    requires Inv(s)
    ensures Inv(PushRoundedClip(s, bounds, radius, steps))
  {
    if s.Ready() && radius.Some? && bounds.NonEmpty() {
      var r := Clamped(radius.value, bounds);
      var found := RoundedClipFor(s.cache, s.active, bounds, r, steps.geometry, steps.cacheMemory);
      RoundedClipKeepsCache(s.cache, s.active, s.next, bounds, r, steps.geometry, steps.cacheMemory);
      RoundedClipKeepsSize(s.cache, s.active, s.peak, bounds, r, steps.geometry, steps.cacheMemory);
      if found.index.Some? {
        PushLayerKeepsInv(s.(cache := found.cache), found.index.value, steps);
      }
    }
  }

  lemma BeginKeepsInv(s: State, o: Opening)
    requires Inv(s)
    ensures Inv(Begin(s, o))
  {
    if !s.drawing {
      DiscardKeepsInv(s.(failed := true));
    }
  }

  lemma EndKeepsInv(s: State, drawn: bool)
    requires Inv(s)
    ensures Inv(End(s, drawn))
    ensures End(s, drawn).clips == [] && End(s, drawn).active == {} && End(s, drawn).device == []
  {
    if s.drawing {
      PopAllKeepsInv(s);
      DiscardKeepsInv(PopAll(s).(drawing := false, failed := s.failed || !drawn));
    }
  }

  // -------------------------------------------------------------------- all runs

  datatype Call =
    | BeginCall(opening: Opening)
    | EndCall(drawn: bool)
    | PushClipCall(memory: bool)
    | PushRoundedClipCall(bounds: Rect, radius: Option<real>, steps: Steps)
    | PopClipCall

  ghost function After(s: State, c: Call): State {
    match c
    case BeginCall(opening) => Begin(s, opening)
    case EndCall(drawn) => End(s, drawn)
    case PushClipCall(memory) => PushClip(s, memory)
    case PushRoundedClipCall(bounds, radius, steps) => PushRoundedClip(s, bounds, radius, steps)
    case PopClipCall => PopClip(s)
  }

  lemma CallKeepsInv(s: State, c: Call)
    requires Inv(s)
    ensures Inv(After(s, c))
  {
    match c
    case BeginCall(opening) => BeginKeepsInv(s, opening);
    case EndCall(drawn) => EndKeepsInv(s, drawn);
    case PushClipCall(memory) =>
    case PushRoundedClipCall(bounds, radius, steps) => PushRoundedKeepsInv(s, bounds, radius, steps);
    case PopClipCall =>
      if s.drawing && s.target && s.clips != [] {
        PopKeepsInv(s);
      }
  }

  ghost function Execute(s: State, calls: seq<Call>): State
    decreases |calls|
  {
    if calls == [] then s else Execute(After(s, calls[0]), calls[1..])
  }

  // The greatest number of keys active at once, now or after one of the calls.
  ghost function PeakKeys(s: State, calls: seq<Call>): nat
    decreases |calls|
  {
    var now := |ActiveKeys(s.cache, s.active)|;
    if calls == [] then now
    else
      var later := PeakKeys(After(s, calls[0]), calls[1..]);
      if later > now then later else now
  }

  ghost predicate PeakOk(s: State, s': State) {
    s'.peak == s.peak || s'.peak == |ActiveKeys(s'.cache, s'.active)|
  }

  lemma PushRoundedRaisesPeak(s: State, bounds: Rect, radius: Option<real>, steps: Steps)
    ensures PeakOk(s, PushRoundedClip(s, bounds, radius, steps))
  {
    if s.Ready() && radius.Some? && bounds.NonEmpty() {
      var found := RoundedClipFor(s.cache, s.active, bounds, Clamped(radius.value, bounds),
                                  steps.geometry, steps.cacheMemory);
      if found.index.Some? {
        PushLayerRaisesPeak(s.(cache := found.cache), found.index.value, steps);
      }
    }
  }

  lemma PushLayerRaisesPeak(s: State, i: nat, steps: Steps)
    ensures PeakOk(s, PushLayer(s, i, steps))
  {
  }

  lemma CallRaisesPeak(s: State, c: Call)
    requires Inv(s)
    ensures PeakOk(s, After(s, c))
  {
    match c
    case EndCall(drawn) => PopAllKeepsInv(s);
    case PushRoundedClipCall(bounds, radius, steps) => PushRoundedRaisesPeak(s, bounds, radius, steps);
    case _ =>
  }

  lemma {:induction false} RunKeepsInv(s: State, calls: seq<Call>)
    requires Inv(s)
    ensures Inv(Execute(s, calls))
    ensures Execute(s, calls).peak <= s.peak || Execute(s, calls).peak <= PeakKeys(s, calls)
    decreases |calls|
  {
    if calls != [] {
      var s' := After(s, calls[0]);
      CallKeepsInv(s, calls[0]);
      CallRaisesPeak(s, calls[0]);
      RunKeepsInv(s', calls[1..]);
      assert |ActiveKeys(s'.cache, s'.active)| <= PeakKeys(s', calls[1..]);
    }
  }

  lemma FreshInv()
    ensures Inv(FRESH)
  {
  }

  function Occurrences(clips: seq<ClipEntry>, l: Layer): nat {
    if clips == [] then 0
    else Occurrences(clips[..|clips| - 1], l) + (if clips[|clips| - 1] == Rounded(l) then 1 else 0)
  }

  lemma {:induction false} StackCounts(clips: seq<ClipEntry>, active: set<Layer>, l: Layer)
    requires StackOk(clips, active)
    ensures Occurrences(clips, l) == if l in active then 1 else 0
    decreases |clips|
  {
    if clips != [] {
      var last := |clips| - 1;
      PoppedStackOk(clips, active);
      StackCounts(clips[..last], Popped(active, clips[last]), l);
    }
  }

  // Whatever was called and whatever failed: a layer is active exactly when it
  // occurs on the stack, and then it occurs once and belongs to the cache, so no
  // entry refers to a layer that was evicted or lost with its device; the render
  // target holds the same clips as the stack; and no key is cached twice.
  lemma ActiveLayersAreOnTheStackOnce(calls: seq<Call>, l: Layer)
    ensures var s := Execute(FRESH, calls);
            && Occurrences(s.clips, l) == (if l in s.active then 1 else 0)
            && (Rounded(l) in s.clips ==> Owned(s.cache, l))
            && s.device == s.clips
            && KeysDistinct(s.cache)
  {
    FreshInv();
    RunKeepsInv(FRESH, calls);
    var s := Execute(FRESH, calls);
    StackCounts(s.clips, s.active, l);
  }

  // The cache holds at most eight keys, or one more than were active at once.
  lemma CacheIsBounded(calls: seq<Call>)
    ensures var size := |Execute(FRESH, calls).cache|;
            size <= 8 || size <= PeakKeys(FRESH, calls) + 1
  {
    FreshInv();
    RunKeepsInv(FRESH, calls);
  }

  // end() leaves the stack and the render target empty and every layer inactive,
  // also after failed calls and when EndDraw itself fails; it tells of both, and
  // keeps the target with its brush and layers exactly if EndDraw succeeds. An
  // end() without a begin() only fails.
  lemma EndEmptiesTheStack(calls: seq<Call>, drawn: bool)
    ensures var s := Execute(FRESH, calls);
            var s' := End(s, drawn);
            && s'.clips == [] && s'.device == [] && s'.active == {} && !s'.drawing
            && (!s.drawing ==> s' == s.(failed := true))
            && (s.drawing ==>
                  && s'.failed == (s.failed || !drawn)
                  && (if drawn then s'.target && s'.brush && s'.cache == s.cache
                      else !s'.target && !s'.brush && NoLayers(s'.cache)))
  {
    FreshInv();
    RunKeepsInv(FRESH, calls);
    EndKeepsInv(Execute(FRESH, calls), drawn);
    if Execute(FRESH, calls).drawing {
      PopAllKeepsInv(Execute(FRESH, calls));
    }
  }

  // Whether begin() finds or gets all it needs.
  predicate CanBegin(s: State, o: Opening) {
    && !s.drawing && o.arguments && o.factories
    && (s.target || o.target) && (s.brush || o.brush) && o.bound
  }

  predicate NoLayers(cache: seq<RoundedClip>) {
    forall i :: 0 <= i < |cache| ==> cache[i].layers == []
  }

  // begin() starts to draw exactly when it has all it needs, on an empty stack,
  // whatever failed before. A refusal is recorded; it costs nothing before there is
  // a target, and afterwards the target with its brush and every layer. A begin()
  // while drawing only fails.
  lemma BeginStartsDrawing(calls: seq<Call>, o: Opening)
    ensures var s := Execute(FRESH, calls);
            var s' := Begin(s, o);
            && (CanBegin(s, o) <==> s'.Ready() && s'.clips == [] && s'.device == [] && s'.active == {})
            && (CanBegin(s, o) ==> s'.cache == s.cache)
            && (s.drawing ==> s' == s.(failed := true))
            && (!s.drawing && !CanBegin(s, o) ==>
                  && !s'.drawing && s'.failed
                  && (if o.arguments && o.factories && (s.target || o.target)
                      then !s'.target && !s'.brush && NoLayers(s'.cache)
                      else s'.target == s.target && s'.brush == s.brush && s'.cache == s.cache))
  {
    FreshInv();
    RunKeepsInv(FRESH, calls);
    var s := Execute(FRESH, calls);
    BeginKeepsInv(s, o);
    if !s.drawing {
      assert s.active == {};
    }
  }

  // An axis-aligned clip is pushed, once, exactly when drawing has not failed and
  // there is memory; popping it restores the stack.
  lemma PushedClip(calls: seq<Call>, memory: bool)
    ensures var s := Execute(FRESH, calls);
            var s' := PushClip(s, memory);
            && (s.Ready() && memory ==>
                  && s'.clips == s.clips + [AxisAligned] && s'.device == s.device + [AxisAligned]
                  && s'.Ready() && s'.active == s.active && s'.cache == s.cache
                  && PopClip(s') == s)
            && (s.Ready() && !memory ==> s' == s.(failed := true))
            && (!s.Ready() ==> s' == s)
  {
    var s := Execute(FRESH, calls);
    assert s.Ready() && memory ==> (s.clips + [AxisAligned])[..|s.clips|] == s.clips;
    assert s.Ready() && memory ==> (s.device + [AxisAligned])[..|s.device|] == s.device;
  }

  // The radius used for a clip: the given one, or the nearest between nothing and
  // half of the shorter side.
  predicate IsRadiusFor(r: real, radius: real, bounds: Rect) {
    var width, height := (bounds.right - bounds.left) as real, (bounds.bottom - bounds.top) as real;
    && 0.0 <= r && 2.0 * r <= width && 2.0 * r <= height
    && (r == radius || (radius < 0.0 && r == 0.0) || (radius > r && (2.0 * r == width || 2.0 * r == height)))
  }

  predicate HasArea(bounds: Rect) {
    bounds.left < bounds.right && bounds.top < bounds.bottom
  }

  lemma ClampedIsRadius(radius: real, bounds: Rect)
    requires HasArea(bounds)
    ensures IsRadiusFor(Clamped(radius, bounds), radius, bounds)
  {
  }

  // A rounded clip is pushed with a layer of its own key that was on no level of
  // the stack, or nothing is pushed and the failure is recorded; popping it
  // restores the stack and the active layers.
  lemma PushedRoundedClip(calls: seq<Call>, bounds: Rect, radius: real, steps: Steps)
    ensures var s := Execute(FRESH, calls);
            var s' := PushRoundedClip(s, bounds, Some(radius), steps);
            s.Ready() && HasArea(bounds) ==>
              || (s'.clips == s.clips && s'.active == s.active && s'.failed)
              || (exists l, i :: && s'.clips == s.clips + [Rounded(l)] && Rounded(l) !in s.clips
                     && 0 <= i < |s'.cache| && l in s'.cache[i].layers
                     && s'.cache[i].bounds == bounds && IsRadiusFor(s'.cache[i].radius, radius, bounds)
                     && PopClip(s').clips == s.clips && PopClip(s').active == s.active)
    ensures var s := Execute(FRESH, calls);
            s.Ready() && HasArea(bounds) && steps == Steps(true, true, true, true, true) ==>
              |PushRoundedClip(s, bounds, Some(radius), steps).clips| == |s.clips| + 1
  {
    FreshInv();
    RunKeepsInv(FRESH, calls);
    var s := Execute(FRESH, calls);
    if s.Ready() && HasArea(bounds) {
      var r := Clamped(radius, bounds);
      ClampedIsRadius(radius, bounds);
      var found := RoundedClipFor(s.cache, s.active, bounds, r, steps.geometry, steps.cacheMemory);
      RoundedClipKeepsCache(s.cache, s.active, s.next, bounds, r, steps.geometry, steps.cacheMemory);
      if found.index.Some? {
        PushedLayer(s.(cache := found.cache), found.index.value, steps);
      }
    }
  }

  // Without an area a clip still hides all, as an axis-aligned one; a radius that
  // is no number only fails; and nothing happens before begin() or after a failure.
  lemma OtherRoundedClips(calls: seq<Call>, bounds: Rect, radius: Option<real>, steps: Steps)
    ensures var s := Execute(FRESH, calls);
            var s' := PushRoundedClip(s, bounds, radius, steps);
            && (!s.Ready() ==> s' == s)
            && (s.Ready() && radius == None ==> s' == s.(failed := true))
            && (s.Ready() && radius.Some? && !HasArea(bounds) ==>
                  s' == if steps.stackMemory
                        then s.(clips := s.clips + [AxisAligned], device := s.device + [AxisAligned])
                        else s.(failed := true))
  {
  }

  // The cached clip of a key, if there is one.
  ghost predicate Cached(s: State, bounds: Rect, r: real, clip: RoundedClip) {
    clip in s.cache && clip.bounds == bounds && clip.radius == r
  }

  ghost predicate HasFreeLayer(s: State, clip: RoundedClip) {
    exists l :: l in clip.layers && l !in s.active
  }

  ghost predicate CanCache(s: State, steps: Steps) {
    && steps.geometry
    && (steps.cacheMemory || (|s.cache| >= 8 && exists clip :: clip in s.cache && !IsActive(clip, s.active)))
  }

  lemma FoundExactly(s: State, bounds: Rect, r: real, steps: Steps)
    requires KeysDistinct(s.cache)
    ensures var found := RoundedClipFor(s.cache, s.active, bounds, r, steps.geometry, steps.cacheMemory);
            && (found.index.Some? <==> (exists clip :: Cached(s, bounds, r, clip)) || CanCache(s, steps))
            && (found.index.Some? ==> found.index.value < |found.cache|)
            && (forall clip :: Cached(s, bounds, r, clip) ==>
                  found.cache == s.cache && found.index.Some? && s.cache[found.index.value] == clip)
            && (found.index.Some? && !(exists clip :: Cached(s, bounds, r, clip)) ==>
                  found.cache[found.index.value].layers == [])
  {
    var known, idle := FindKey(s.cache, bounds, r), FindIdle(s.cache, s.active);
    if known < |s.cache| {
      assert Cached(s, bounds, r, s.cache[known]);
    }
    forall clip | Cached(s, bounds, r, clip)
      ensures known < |s.cache| && s.cache[known] == clip
    {
      var i :| 0 <= i < |s.cache| && s.cache[i] == clip;
      assert HasKey(s.cache[i], bounds, r);
    }
    if idle < |s.cache| {
      assert s.cache[idle] in s.cache && !IsActive(s.cache[idle], s.active);
    } else {
      forall clip | clip in s.cache
        ensures IsActive(clip, s.active)
      {
        var i :| 0 <= i < |s.cache| && s.cache[i] == clip;
      }
    }
  }

  lemma FreeLayerIsFound(s: State, clip: RoundedClip)
    ensures HasFreeLayer(s, clip) <==> FindFree(clip.layers, s.active) < |clip.layers|
  {
    var free := FindFree(clip.layers, s.active);
    if free < |clip.layers| {
      assert clip.layers[free] in clip.layers && clip.layers[free] !in s.active;
    }
  }

  // What a push needs: the geometry unless it is cached, and then room for it, got
  // also by evicting an idle one of eight; a layer unless the clip has one that is
  // not on the stack; and memory for the stack. Exactly then it succeeds.
  lemma PushSucceedsExactly(calls: seq<Call>, bounds: Rect, radius: real, steps: Steps, r: real)
    requires Execute(FRESH, calls).Ready() && HasArea(bounds) && IsRadiusFor(r, radius, bounds)
    ensures var s := Execute(FRESH, calls);
            var s' := PushRoundedClip(s, bounds, Some(radius), steps);
            var free := exists clip :: Cached(s, bounds, r, clip) && HasFreeLayer(s, clip);
            && (|s'.clips| == |s.clips| + 1
                <==> ((exists clip :: Cached(s, bounds, r, clip)) || CanCache(s, steps))
                     && (free || (steps.layer && steps.poolMemory)) && steps.stackMemory)
            && (s'.failed <==> |s'.clips| == |s.clips|)
            && (free ==> s'.cache == s.cache)
  {
    FreshInv();
    RunKeepsInv(FRESH, calls);
    var s := Execute(FRESH, calls);
    OneRadius(r, Clamped(radius, bounds), radius, bounds);
    FoundExactly(s, bounds, r, steps);
    var found := RoundedClipFor(s.cache, s.active, bounds, r, steps.geometry, steps.cacheMemory);
    if found.index.Some? {
      var clip := found.cache[found.index.value];
      FreeLayerIsFound(s, clip);
      PushedExactly(s.(cache := found.cache), found.index.value, steps);
    }
  }

  lemma OneRadius(r: real, r': real, radius: real, bounds: Rect)
    requires HasArea(bounds) && IsRadiusFor(r, radius, bounds) && r' == Clamped(radius, bounds)
    ensures r == r'
  {
  }

  lemma PushedExactly(s: State, i: nat, steps: Steps)
    requires s.Ready() && i < |s.cache|
    ensures var s' := PushLayer(s, i, steps);
            var free := FindFree(s.cache[i].layers, s.active) < |s.cache[i].layers|;
            && (|s'.clips| == |s.clips| + 1 <==> (free || (steps.layer && steps.poolMemory)) && steps.stackMemory)
            && (s'.failed <==> |s'.clips| == |s.clips|)
            && (free ==> s'.cache == s.cache)
  {
  }

  lemma PushedLayer(s: State, i: nat, steps: Steps)
    requires s.Ready() && i < |s.cache| && CacheOk(s.cache, s.active, s.next) && StackOk(s.clips, s.active)
    ensures var s' := PushLayer(s, i, steps);
            || (s'.clips == s.clips && s'.active == s.active && s'.failed)
            || (exists l :: && s'.clips == s.clips + [Rounded(l)] && Rounded(l) !in s.clips
                   && i < |s'.cache| && l in s'.cache[i].layers
                   && HasKey(s'.cache[i], s.cache[i].bounds, s.cache[i].radius)
                   && PopClip(s').clips == s.clips && PopClip(s').active == s.active)
    ensures steps == Steps(true, true, true, true, true) ==> |PushLayer(s, i, steps).clips| == |s.clips| + 1
  {
    var s' := PushLayer(s, i, steps);
    var free := FindFree(s.cache[i].layers, s.active);
    var l := if free < |s.cache[i].layers| then s.cache[i].layers[free] else s.next;
    if l == s.next {
      WithLayerKeepsCache(s.cache, s.active, s.next, i);
    }
    if s'.clips != s.clips {
      assert s'.clips == s.clips + [Rounded(l)] && l in s'.cache[i].layers;
      assert s'.clips[..|s.clips|] == s.clips && s'.active - {l} == s.active;
    }
  }

  // ------------------------------------------------------------ imperative form

  class InstallerPainter {
    var clips: seq<ClipEntry>
    var roundedClips: seq<RoundedClip>
    var active: set<Layer>
    var nextLayer: Layer
    var drawing: bool
    var target: bool
    var brush: bool
    var failed: bool
    ghost var peak: nat
    ghost var device: seq<ClipEntry>

    ghost function Value(): State
      reads this
    {
      State(clips, roundedClips, active, nextLayer, drawing, target, brush, failed, peak, device)
    }

    constructor ()
      ensures Value() == FRESH
    {
      clips, roundedClips, active, nextLayer := [], [], {}, 0;
      drawing, target, brush, failed := false, false, false, false;
      peak, device := 0, [];
    }

    method PopEntry()
      requires clips != []
      modifies `clips, `active, `device
      ensures Value() == Pop(old(Value()))
    {
      var entry := clips[|clips| - 1];
      if entry.Rounded? {
        active := active - {entry.layer};
      }
      clips := clips[..|clips| - 1];
      device := if device == [] then [] else device[..|device| - 1];
    }

    method Discard()
      modifies `roundedClips, `brush, `target
      ensures Value() == DiscardTarget(old(Value()))
    {
      ghost var cache := roundedClips;
      var i := 0;
      while i < |roundedClips|
        invariant 0 <= i <= |roundedClips| == |cache|
        invariant forall k :: 0 <= k < i ==> roundedClips[k] == cache[k].(layers := [])
        invariant forall k :: i <= k < |cache| ==> roundedClips[k] == cache[k]
      {
        roundedClips := roundedClips[i := roundedClips[i].(layers := [])];
        i := i + 1;
      }
      brush := false;
      target := false;
    }

    method BeginDrawing(o: Opening) returns (ok: bool)
      modifies this
      ensures Value() == Begin(old(Value()), o)
      ensures ok == (!old(drawing) && drawing)
    {
      if drawing {
        failed := true;
        return false;
      }
      failed := false;
      if !o.arguments || !o.factories || !(target || o.target) {
        failed := true;
        return false;
      }
      if !(brush || o.brush) || !o.bound {
        failed := true;
        Discard();
        return false;
      }
      target, brush, drawing := true, true, true;
      clips, device := [], [];
      return true;
    }

    method EndDrawing(drawn: bool) returns (ok: bool)
      modifies this
      ensures Value() == End(old(Value()), drawn)
      ensures ok == (old(drawing) && drawn && !old(failed))
    {
      if !drawing {
        failed := true;
        return false;
      }
      while clips != []
        invariant PopAll(Value()) == PopAll(old(Value()))
        invariant drawing && failed == old(failed)
        decreases |clips|
      {
        PopEntry();
      }
      drawing := false;
      failed := failed || !drawn;
      if !drawn {
        Discard();
      }
      return !failed;
    }

    method PushAxisAligned(memory: bool)
      modifies `clips, `device, `failed
      ensures Value() == PushClip(old(Value()), memory)
    {
      if drawing && target && brush && !failed {
        if !memory {
          failed := true;
          return;
        }
        clips := clips + [AxisAligned];
        device := device + [AxisAligned];
      }
    }

    method PushRounded(bounds: Rect, radius: Option<real>, steps: Steps)
      modifies this
      ensures Value() == PushRoundedClip(old(Value()), bounds, radius, steps)
    {
      if !(drawing && target && brush && !failed) {
        return;
      }
      if radius.None? {
        failed := true;
        return;
      }
      if !bounds.NonEmpty() {
        PushAxisAligned(steps.stackMemory);
        return;
      }
      var found := RoundedClipFor(roundedClips, active, bounds, Clamped(radius.value, bounds),
                                  steps.geometry, steps.cacheMemory);
      roundedClips := found.cache;
      if found.index.None? {
        failed := true;
        return;
      }
      PushLayerOf(found.index.value, steps);
    }

    method PushLayerOf(i: nat, steps: Steps)
      modifies this
      ensures Value() == PushLayer(old(Value()), i, steps)
    {
      if i >= |roundedClips| {
        return;
      }
      var pool := roundedClips[i].layers;
      var free := FindFree(pool, active);
      var layer := nextLayer;
      if free < |pool| {
        layer := pool[free];
      } else {
        if !steps.layer || !steps.poolMemory {
          failed := true;
          return;
        }
        roundedClips := roundedClips[i := roundedClips[i].(layers := pool + [layer])];
        nextLayer := nextLayer + 1;
      }
      if !steps.stackMemory {
        failed := true;
        return;
      }
      clips := clips + [Rounded(layer)];
      device := device + [Rounded(layer)];
      active := active + {layer};
      ghost var keys := |ActiveKeys(roundedClips, active)|;
      peak := if keys > peak then keys else peak;
    }

    method PopTop()
      modifies `clips, `active, `device
      ensures Value() == PopClip(old(Value()))
    {
      if drawing && target && clips != [] {
        PopEntry();
      }
    }
  }
}
