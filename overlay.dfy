/** The page's layers and the state the script keeps about them: which
    layer is the "current" one that the sliders adjust and whose gap is
    checked, the layer name shown beside the sliders, and the two elements
    that report the gap.

    Layers are kept in document order. `getElementById` returns the first
    layer with the requested id; the current layer is held as its index. */
module Overlay {

  import opened Wrappers
  import opened Styles
  import opened Geometry
  import opened Pixels
  import opened Severity

  /** `data-layer-type`: `Vowel` for 'vowel'; every other layer (the
      mouth-interior background) is `Background`. */
  datatype LayerKind = Vowel | Background

  /** One `.parallax-layer` element: its id, its type, its `data-speed`, its
      `data-initial-name` (absent: `None`) and its inline style. */
  datatype Layer = Layer(id: string, kind: LayerKind, speed: real, initialName: Option<string>, style: Style)

  /** Id of the background layer. */
  const BackgroundId: string := "mouth-inside"

  /** The id `showMouth(vowel)` looks up. */
  function TargetId(vowel: string): (id: string)
    ensures |id| >= 6 && id[..6] == "mouth-"
    ensures vowel != "none" ==> id[6..] == vowel
  {
    if vowel == "none" then BackgroundId else "mouth-" + vowel
  }

  /** `getElementById`: the index of the first layer with this id. */
  function IndexOf(ls: seq<Layer>, id: string): (r: Option<nat>)
    ensures r.Some? ==> r.value < |ls| && ls[r.value].id == id
    ensures r.Some? ==> forall j :: 0 <= j < r.value ==> ls[j].id != id
    ensures r.None? <==> forall j :: 0 <= j < |ls| ==> ls[j].id != id
  {
    if |ls| == 0 then None
    else if ls[0].id == id then Some(0)
    else match IndexOf(ls[1..], id)
      case None => None
      case Some(k) => Some(k + 1)
  }

  /** Two layer lists with the same ids in the same places. */
  predicate SameIds(a: seq<Layer>, b: seq<Layer>) {
    |a| == |b| && forall j :: 0 <= j < |a| ==> a[j].id == b[j].id
  }

  /** The lookup sees only ids. */
  lemma {:induction false} IndexOfSameIds(a: seq<Layer>, b: seq<Layer>, id: string)
    requires SameIds(a, b)
    ensures IndexOf(a, id) == IndexOf(b, id)
    decreases |a|
  {
    if |a| > 0 && a[0].id != id {
      assert SameIds(a[1..], b[1..]) by {
        forall j | 0 <= j < |a[1..]| ensures a[1..][j].id == b[1..][j].id {
          assert a[1..][j] == a[j + 1] && b[1..][j] == b[j + 1];
        }
      }
      IndexOfSameIds(a[1..], b[1..], id);
    }
  }

  function WithDisplay(l: Layer, d: Display): Layer {
    l.(style := l.style.(display := d))
  }

  /** Step 1 of `showMouth`, on one layer: vowel layers get `display: none`. */
  function HideIfVowel(l: Layer): Layer {
    if l.kind == Vowel then WithDisplay(l, Hidden) else l
  }

  function HideVowels(ls: seq<Layer>): seq<Layer> {
    seq(|ls|, j requires 0 <= j < |ls| => HideIfVowel(ls[j]))
  }

  /** The layers after `showMouth(vowel)`: vowel layers hidden, then (unless
      `vowel` is 'none') the first layer with id `mouth-<vowel>` shown. */
  function AfterShowMouth(ls: seq<Layer>, vowel: string): (r: seq<Layer>)
    ensures |r| == |ls|
    ensures forall j :: 0 <= j < |ls| ==> r[j] == WithDisplay(ls[j], r[j].style.display)
  {
    var hidden := HideVowels(ls);
    if vowel == "none" then hidden
    else match IndexOf(hidden, TargetId(vowel))
      case None => hidden
      case Some(k) => hidden[k := WithDisplay(hidden[k], Block)]
  }

  /** Where `showMouth(vowel)` writes `display: block`, if anywhere. */
  function Shown(ls: seq<Layer>, vowel: string): Option<nat> {
    if vowel == "none" then None else IndexOf(ls, TargetId(vowel))
  }

  /** The displays after `showMouth(vowel)`: the requested layer is 'block';
      every other vowel layer is 'none'; every other layer keeps its display. */
  lemma ShowMouthDisplays(ls: seq<Layer>, vowel: string, j: nat)
    requires j < |ls|
    ensures |AfterShowMouth(ls, vowel)| == |ls|
    ensures Shown(ls, vowel) == Some(j) ==> AfterShowMouth(ls, vowel)[j].style.display == Block
    ensures Shown(ls, vowel) != Some(j) && ls[j].kind == Vowel ==>
      AfterShowMouth(ls, vowel)[j].style.display == Hidden
    ensures Shown(ls, vowel) != Some(j) && ls[j].kind == Background ==>
      AfterShowMouth(ls, vowel)[j].style.display == ls[j].style.display
  {
    IndexOfSameIds(HideVowels(ls), ls, TargetId(vowel));
  }

  /** After `showMouth`, at most one vowel layer is not hidden. */
  lemma AtMostOneVowelShown(ls: seq<Layer>, vowel: string, i: nat, j: nat)
    requires i < |ls| && j < |ls|
    requires ls[i].kind == Vowel && ls[j].kind == Vowel
    requires AfterShowMouth(ls, vowel)[i].style.display != Hidden
    requires AfterShowMouth(ls, vowel)[j].style.display != Hidden
    ensures i == j
  {
    ShowMouthDisplays(ls, vowel, i);
    ShowMouthDisplays(ls, vowel, j);
  }

  /** The vowel layers' displays depend only on the last call, not on what
      was shown before. */
  lemma VowelDisplaysForgetHistory(ls: seq<Layer>, v1: string, v2: string, j: nat)
    requires j < |ls| && ls[j].kind == Vowel
    ensures |AfterShowMouth(AfterShowMouth(ls, v1), v2)| == |ls|
    ensures AfterShowMouth(AfterShowMouth(ls, v1), v2)[j] == AfterShowMouth(ls, v2)[j]
  {
    var mid := AfterShowMouth(ls, v1);
    assert SameIds(mid, ls);
    IndexOfSameIds(mid, ls, TargetId(v2));
    ShowMouthDisplays(ls, v1, j);
    ShowMouthDisplays(mid, v2, j);
    ShowMouthDisplays(ls, v2, j);
  }

  /** `showMouth('inside')` selects the background, as 'none' does, and in
      addition writes `display: block` on it. */
  lemma ShowInsideSelectsBackground(ls: seq<Layer>)
    ensures TargetId("inside") == TargetId("none")
    ensures IndexOf(ls, BackgroundId).Some? ==>
      Shown(ls, "inside") == IndexOf(ls, BackgroundId) && Shown(ls, "none").None?
  {
    assert "mouth-" + "inside" == BackgroundId;
  }

  /** Text of the layer-name label for a layer: its `data-initial-name`;
      a missing attribute reads as `null`, which `textContent` shows as ''. */
  function NameText(l: Layer): (text: string)
    ensures text == "" <==> l.initialName.None? || l.initialName.value == ""
    ensures l.initialName.Some? ==> text == l.initialName.value
  {
    l.initialName.GetOr("")
  }

  /** A layer after the mouse-move handler: its parallax shift is the mouse
      offset scaled by its speed and by the damping factor. */
  function WithParallax(l: Layer, mouseX: real, mouseY: real, damping: real): (r: Layer)
    ensures r == l.(style := l.style.(transform := r.style.transform))
    ensures r.style.transform.Some?
    ensures r.style.transform.value.parallaxX == mouseX * l.speed * damping
    ensures r.style.transform.value.parallaxY == mouseY * l.speed * damping
  {
    l.(style := l.style.(transform :=
      Some(ParallaxTransform(l.style, mouseX * l.speed * damping, mouseY * l.speed * damping))))
  }

  /** The script's global state. */
  class Page {
    /** The `.parallax-layer` elements, in document order. */
    var layers: seq<Layer>
    /** `currentLayer`: index of the selected layer, `None` for `null`. */
    var current: Option<nat>
    /** Text of `#current-layer-name`. */
    var layerName: string
    /** `#gap-alert`. */
    var alert: Alert
    /** `#gap-ratio`: `None` until the first check writes it. */
    var ratio: Option<Message>

    ghost predicate Valid()
      reads this
    {
      current.Some? ==> current.value < |layers|
    }

    /** `checkGap` gets as far as reading the pixels: there is a current
        layer and a background layer to draw. */
    predicate Reports()
      reads this
    {
      current.Some? && IndexOf(layers, BackgroundId).Some?
    }

    /** Page load: `currentLayer` starts as the background layer. */
    constructor (ls: seq<Layer>, initialLabel: string)
      ensures Valid()
      ensures layers == ls && current == IndexOf(ls, BackgroundId)
      ensures layerName == initialLabel
      ensures alert == Alert(Unset, None) && ratio == None
    {
      layers := ls;
      current := IndexOf(ls, BackgroundId);
      layerName := initialLabel;
      alert := Alert(Unset, None);
      ratio := None;
    }

    /** `showMouth(vowel)`. When the looked-up layer does not exist,
        `currentLayer` becomes `null` and reading its name throws, so the
        label is not updated; that outcome is `ok == false`. */
    method ShowMouth(vowel: string) returns (ok: bool)
      requires Valid()
      modifies this`layers, this`current, this`layerName
      ensures Valid()
      ensures layers == AfterShowMouth(old(layers), vowel)
      ensures current == IndexOf(old(layers), TargetId(vowel))
      ensures ok <==> current.Some?
      ensures ok ==> layerName == NameText(old(layers)[current.value])
      ensures !ok ==> layerName == old(layerName)
    {
      var i := 0;
      while i < |layers|
        invariant 0 <= i <= |layers| == |old(layers)|
        invariant forall j :: 0 <= j < i ==> layers[j] == HideIfVowel(old(layers)[j])
        invariant forall j :: i <= j < |layers| ==> layers[j] == old(layers)[j]
        invariant layerName == old(layerName)
      {
        if layers[i].kind == Vowel {
          layers := layers[i := WithDisplay(layers[i], Hidden)];
        }
        i := i + 1;
      }
      ghost var hidden := layers;
      assert hidden == HideVowels(old(layers));
      IndexOfSameIds(hidden, old(layers), TargetId(vowel));
      var newLayer: Option<nat>;
      if vowel == "none" {
        newLayer := IndexOf(layers, BackgroundId);
      } else {
        newLayer := IndexOf(layers, "mouth-" + vowel);
        assert newLayer == IndexOf(hidden, TargetId(vowel));
        if newLayer.Some? {
          layers := layers[newLayer.value := WithDisplay(layers[newLayer.value], Block)];
        }
      }
      assert layers == AfterShowMouth(old(layers), vowel);
      current := newLayer;
      if current.None? {
        ok := false;
      } else {
        layerName := NameText(layers[current.value]);
        ok := true;
      }
    }

    /** `applyAdjustments(layer, yOffset, xOffset, size)` on the layer at
        index `k`; no other layer and no other state changes. */
    method ApplyAdjustments(k: nat, yOffset: real, xOffset: real, size: real)
      requires Valid() && k < |layers|
      modifies this`layers
      ensures Valid()
      ensures layers == old(layers)[k := old(layers)[k].(style := Adjusted(old(layers)[k].style, yOffset, xOffset, size))]
    {
      layers := layers[k := layers[k].(style := Adjusted(layers[k].style, yOffset, xOffset, size))];
    }

    /** The loop of the second mouse-move handler: every layer's transform
        becomes its base offset (or the '-50%' fallback) followed by its
        parallax shift. The damping factor is computed by the caller. */
    method ApplyParallax(mouseX: real, mouseY: real, damping: real)
      requires Valid()
      modifies this`layers
      ensures Valid()
      ensures |layers| == |old(layers)|
      ensures forall j :: 0 <= j < |layers| ==> layers[j] == WithParallax(old(layers)[j], mouseX, mouseY, damping)
    {
      var i := 0;
      while i < |layers|
        invariant 0 <= i <= |layers| == |old(layers)|
        invariant forall j :: 0 <= j < i ==> layers[j] == WithParallax(old(layers)[j], mouseX, mouseY, damping)
        invariant forall j :: i <= j < |layers| ==> layers[j] == old(layers)[j]
      {
        layers := layers[i := WithParallax(layers[i], mouseX, mouseY, damping)];
        i := i + 1;
      }
    }

    /** The `update` closure of the sliders: when there is a current layer,
        adjust it and check the gap again. `layerRect` and `data` are what
        the browser reports after the adjustment. */
    method OnSliderInput(yOffset: real, xOffset: real, size: real,
                         canvas: Canvas, container: Rect, layerRect: Rect, data: seq<Byte>)
      returns (window: Option<Point>)
      requires Valid()
      requires |data| == WindowBytes
      modifies this`layers, this`alert, this`ratio
      ensures Valid()
      ensures old(current).None? ==> layers == old(layers) && alert == old(alert) && ratio == old(ratio) && window.None?
      ensures old(current).Some? ==>
        layers == old(layers)[old(current).value := old(layers)[old(current).value].(style :=
          Adjusted(old(layers)[old(current).value].style, yOffset, xOffset, size))]
      ensures Reports() ==> window == Some(ScanWindow(canvas, container, layerRect))
      ensures Reports() ==> alert == AlertAfter(old(alert), CountGreen(data))
      ensures Reports() ==> ratio == Some(Message(Classify(CountGreen(data)), CountGreen(data)))
      ensures old(current).Some? && !Reports() ==> alert == old(alert) && ratio == old(ratio) && window.None?
    {
      window := None;
      if current.Some? {
        ApplyAdjustments(current.value, yOffset, xOffset, size);
        window := CheckGap(canvas, container, layerRect, data);
      }
    }

    /** `checkGap()`. `layerRect` is the current layer's bounding rectangle
        and `data` the pixels of the clamped window, both as the browser
        reports them. Returns the window that was sampled, or `None` when
        nothing is reported: there is no current layer (the early return),
        or there is no background layer (drawing it throws before any
        pixel is read). */
    method CheckGap(canvas: Canvas, container: Rect, layerRect: Rect, data: seq<Byte>) returns (window: Option<Point>)
      requires Valid()
      requires |data| == WindowBytes
      modifies this`alert, this`ratio
      ensures Valid()
      ensures !Reports() ==> window.None? && alert == old(alert) && ratio == old(ratio)
      ensures Reports() ==> window == Some(ScanWindow(canvas, container, layerRect))
      ensures Reports() ==> alert == AlertAfter(old(alert), CountGreen(data))
      ensures Reports() ==> ratio == Some(Message(Classify(CountGreen(data)), CountGreen(data)))
    {
      if current.None? {
        return None;
      }
      if IndexOf(layers, BackgroundId).None? {
        return None;
      }
      var start := ScanStart(canvas, container, layerRect);
      var safe := Point(Clamp(start.x, canvas.width), Clamp(start.y, canvas.height));
      var count := CountGreenPixels(data);
      if count == 0 {
        alert := alert.(display := Hidden);
        ratio := Some(Message(NoGap, 0));
      } else {
        var tier;
        if count >= 1 && count <= 10 {
          tier := Slight;
        } else if count > 10 && count < 50 {
          tier := Warning;
        } else {
          tier := Critical;
        }
        alert := Alert(Block, Some(Message(tier, count)));
        ratio := Some(Message(tier, count));
      }
      window := Some(safe);
    }
  }

  /** A check over a window showing only background green reports a
      critical gap of 900 pixels and shows the alert. */
  lemma FullGreenWindowIsCritical(prev: Alert, data: seq<Byte>)
    requires |data| == WindowBytes
    requires forall p: nat :: p < |data| / 4 ==> GreenAt(data, p)
    ensures AlertAfter(prev, CountGreen(data)) == Alert(Block, Some(Message(Critical, 900)))
    ensures RatioAfter(CountGreen(data)) == Message(Critical, 900)
  {
    FullGreenWindow(data);
  }

  /** A check over a window the overlay covers entirely reports no gap and
      hides the alert. */
  lemma CoveredWindowIsNoGap(prev: Alert, data: seq<Byte>)
    requires |data| == WindowBytes
    requires forall p: nat :: p < |data| / 4 ==> !GreenAt(data, p)
    ensures AlertAfter(prev, CountGreen(data)) == prev.(display := Hidden)
    ensures RatioAfter(CountGreen(data)) == Message(NoGap, 0)
  {
    NoGreenCountsZero(data);
  }
}
