/**
 * The music visualizer's bookkeeping: the layer list and its three edits,
 * the spectrum-bin index each drawing routine reads, and the particle buffer
 * that `drawParticles` resizes and moves every frame.
 */
module Visualizer {
  import opened Wrappers
  import JsStrings

  // ---------------------------------------------------------------------------
  // Layers
  // ---------------------------------------------------------------------------

  datatype Style = Waveform | Frequency | Circular | Particles | Face | Cube3d | Spiral | Dna

  datatype BlendMode = Normal | Screen | Multiply | Overlay | Difference

  datatype Layer = Layer(id: string, style: Style, enabled: bool, opacity: real, blendMode: BlendMode)

  /** A `Partial<Layer>`: only the properties present are changed. */
  datatype LayerUpdate = LayerUpdate(
    id: Option<string>,
    style: Option<Style>,
    enabled: Option<bool>,
    opacity: Option<real>,
    blendMode: Option<BlendMode>)

  /** The layer list the page starts with. */
  const INITIAL_LAYERS: seq<Layer> := [Layer("1", Waveform, true, 100.0, Normal)]

  /** `addLayer`, with `now` the value of `Date.now()`. */
  function AddLayer(layers: seq<Layer>, now: nat): (r: seq<Layer>)
    ensures |r| == |layers| + 1
    ensures r[..|layers|] == layers
    ensures r[|layers|] == Layer(JsStrings.Decimal(now), Frequency, true, 100.0, Screen)
  {
    layers + [Layer(JsStrings.Decimal(now), Frequency, true, 100.0, Screen)]
  }

  /** `removeLayer`: `layers.filter(layer => layer.id !== id)`. */
  function RemoveLayer(layers: seq<Layer>, id: string): (r: seq<Layer>)
    ensures |r| <= |layers|
  {
    if layers == [] then []
    else if layers[0].id == id then RemoveLayer(layers[1..], id)
    else [layers[0]] + RemoveLayer(layers[1..], id)
  }

  /** Exactly the layers with the id are gone; every other layer is still there. */
  lemma {:induction false} RemoveLayerMembers(layers: seq<Layer>, id: string, l: Layer)
    ensures l in RemoveLayer(layers, id) <==> l in layers && l.id != id
  {
    if layers != [] {
      RemoveLayerMembers(layers[1..], id, l);
      assert layers == [layers[0]] + layers[1..];
    }
  }

  /** Removal keeps order: removing from a concatenation removes from each part. */
  lemma {:induction false} RemoveLayerConcat(a: seq<Layer>, b: seq<Layer>, id: string)
    ensures RemoveLayer(a + b, id) == RemoveLayer(a, id) + RemoveLayer(b, id)
  {
    if a == [] {
      assert a + b == b;
    } else {
      var ab := a + b;
      assert ab[0] == a[0];
      assert ab[1..] == a[1..] + b;
      RemoveLayerConcat(a[1..], b, id);
      if a[0].id == id {
        assert RemoveLayer(ab, id) == RemoveLayer(ab[1..], id);
        assert RemoveLayer(a, id) == RemoveLayer(a[1..], id);
      } else {
        assert RemoveLayer(ab, id) == [a[0]] + RemoveLayer(ab[1..], id);
        assert RemoveLayer(a, id) == [a[0]] + RemoveLayer(a[1..], id);
      }
    }
  }

  /** The number of layers with the id. */
  function CountId(layers: seq<Layer>, id: string): nat {
    if layers == [] then 0 else (if layers[0].id == id then 1 else 0) + CountId(layers[1..], id)
  }

  /** Removal drops exactly the layers that carry the id. */
  lemma {:induction false} RemoveLayerLength(layers: seq<Layer>, id: string)
    ensures |RemoveLayer(layers, id)| == |layers| - CountId(layers, id)
  {
    if layers != [] {
      RemoveLayerLength(layers[1..], id);
    }
  }

  predicate UniqueIds(layers: seq<Layer>) {
    forall i, j :: 0 <= i < j < |layers| ==> layers[i].id != layers[j].id
  }

  lemma {:induction false} UniqueCountsOne(layers: seq<Layer>, k: nat)
    requires UniqueIds(layers) && k < |layers|
    ensures CountId(layers, layers[k].id) == 1
  {
    if k == 0 {
      NoOtherId(layers[1..], layers[0].id);
    } else {
      UniqueCountsOne(layers[1..], k - 1);
    }
  }

  lemma {:induction false} NoOtherId(layers: seq<Layer>, id: string)
    requires forall i :: 0 <= i < |layers| ==> layers[i].id != id
    ensures CountId(layers, id) == 0
  {
    if layers != [] {
      NoOtherId(layers[1..], id);
    }
  }

  /**
   * The remove button is drawn for each layer only while there are at least
   * two: pressing it on a list with distinct ids removes that one layer and
   * never leaves the list empty.
   */
  lemma UiRemovalKeepsOne(layers: seq<Layer>, k: nat)
    requires |layers| > 1 && k < |layers|
    requires UniqueIds(layers)
    ensures |RemoveLayer(layers, layers[k].id)| == |layers| - 1 >= 1
  {
    RemoveLayerLength(layers, layers[k].id);
    UniqueCountsOne(layers, k);
  }

  /** `{ ...layer, ...updates }`. */
  function MergeLayer(l: Layer, u: LayerUpdate): Layer {
    Layer(
      u.id.GetOr(l.id),
      u.style.GetOr(l.style),
      u.enabled.GetOr(l.enabled),
      u.opacity.GetOr(l.opacity),
      u.blendMode.GetOr(l.blendMode))
  }

  /** `updateLayer`: the updates go into the layers whose id matches. */
  function UpdateLayer(layers: seq<Layer>, id: string, u: LayerUpdate): (r: seq<Layer>)
    ensures |r| == |layers|
    ensures forall k :: 0 <= k < |layers| && layers[k].id == id ==> r[k] == MergeLayer(layers[k], u)
    ensures forall k :: 0 <= k < |layers| && layers[k].id != id ==> r[k] == layers[k]
  {
    if layers == [] then []
    else [if layers[0].id == id then MergeLayer(layers[0], u) else layers[0]] + UpdateLayer(layers[1..], id, u)
  }

  /** An update that names only some properties leaves the others as they were. */
  lemma MergeKeepsAbsent(l: Layer, u: LayerUpdate)
    ensures u.id.None? ==> MergeLayer(l, u).id == l.id
    ensures u.opacity.None? ==> MergeLayer(l, u).opacity == l.opacity
    ensures u.opacity.Some? ==> MergeLayer(l, u).opacity == u.opacity.value
    ensures u == LayerUpdate(None, None, None, None, None) ==> MergeLayer(l, u) == l
  {
  }

  // ---------------------------------------------------------------------------
  // Spectrum bins
  // ---------------------------------------------------------------------------

  /** `Math.floor(p * len)`. */
  function BinIndex(p: real, len: nat): (k: int)
    requires 0.0 <= p < 1.0
    ensures len > 0 ==> 0 <= k < len
    ensures len == 0 ==> k == 0
  {
    FloorBounds(p, len);
    (p * len as real).Floor
  }

  lemma FloorBounds(p: real, len: nat)
    requires 0.0 <= p < 1.0
    ensures 0.0 <= p * len as real
    ensures len > 0 ==> p * len as real < len as real
  {
  }

  /** Later fractions never read an earlier bin. */
  lemma BinIndexMonotone(p: real, q: real, len: nat)
    requires 0.0 <= p <= q < 1.0
    ensures BinIndex(p, len) <= BinIndex(q, len)
  {
    assert p * len as real <= q * len as real;
  }

  /** The bin of item i out of n: `Math.floor((i / n) * dataArray.length)`. */
  function ItemBin(i: nat, n: nat, len: nat): (k: int)
    requires i < n
    ensures len > 0 ==> 0 <= k < len
  {
    BinIndex(i as real / n as real, len)
  }

  /** Bar i of `drawFrequency` (n = barCount), bar i of `drawCircular` (n = bars) and particle i of `drawParticles` (n = count) all read inside the array. */
  lemma ItemBinInBounds(i: nat, n: nat, len: nat)
    requires i < n && len > 0
    ensures 0 <= ItemBin(i, n, len) < len
  {
  }

  /** `drawDNA`: row i, from -height/2 up to height/2, reads `floor(((i + height/2) / height) * len)`. */
  function DnaBin(i: real, height: nat, len: nat): (k: int)
    requires height > 0
    requires -(height as real) / 2.0 <= i < height as real / 2.0
    ensures len > 0 ==> 0 <= k < len
  {
    var p := (i + height as real / 2.0) / height as real;
    assert 0.0 <= p < 1.0 by { DnaFraction(i, height); }
    BinIndex(p, len)
  }

  lemma DnaFraction(i: real, height: nat)
    requires height > 0
    requires -(height as real) / 2.0 <= i < height as real / 2.0
    ensures 0.0 <= (i + height as real / 2.0) / height as real < 1.0
  {
    var h := height as real;
    var t := i + h / 2.0;
    assert 0.0 <= t < h;
    assert t / h < 1.0 by {
      assert t / h * h == t;
    }
  }

  /** The rows `drawDNA` visits: -height/2, then every 5 pixels while below height/2. */
  lemma DnaRowsInBounds(height: nat, len: nat, step: nat)
    requires height > 0 && len > 0
    requires -(height as real) / 2.0 + 5.0 * step as real < height as real / 2.0
    ensures 0 <= DnaBin(-(height as real) / 2.0 + 5.0 * step as real, height, len) < len
  {
  }

  /** `drawSpiral` reads index 4i for every i below `dataArray.length / 4`. */
  lemma SpiralIndexInBounds(i: nat, len: nat)
    requires (i as real) < len as real / 4.0
    ensures 4 * i < len
  {
  }

  // ---------------------------------------------------------------------------
  // Particles
  // ---------------------------------------------------------------------------

  datatype Particle = Particle(x: real, y: real, vx: real, vy: real, life: real)

  datatype ParticleSettings = ParticleSettings(count: nat, size: real, speed: real, reactive: bool)

  const DEFAULT_PARTICLES: ParticleSettings := ParticleSettings(100, 3.0, 1.0, true)

  /** Every draw of `Math.random()` lies in [0, 1). */
  predicate Draws(ds: seq<real>) {
    forall k :: 0 <= k < |ds| ==> 0.0 <= ds[k] < 1.0
  }

  /** `{ x: r1 * width, y: r2 * height, vx: (r3 - 0.5) * speed, vy: (r4 - 0.5) * speed, life: 1 }`. */
  function NewParticle(r1: real, r2: real, r3: real, r4: real, width: nat, height: nat, speed: real): (p: Particle)
    requires 0.0 <= r1 < 1.0 && 0.0 <= r2 < 1.0
    ensures 0.0 <= p.x <= width as real && 0.0 <= p.y <= height as real
    ensures p.life == 1.0
  {
    ScaleBounds(r1, width);
    ScaleBounds(r2, height);
    Particle(r1 * (width as real), r2 * (height as real), (r3 - 0.5) * speed, (r4 - 0.5) * speed, 1.0)
  }

  /** The particle pushed from the draws at 4k .. 4k + 3. */
  function Spawn(draws: seq<real>, k: nat, width: nat, height: nat, speed: real): (p: Particle)
    requires 4 * k + 3 < |draws| && Draws(draws)
    ensures 0.0 <= p.x <= width as real && 0.0 <= p.y <= height as real
  {
    NewParticle(draws[4 * k], draws[4 * k + 1], draws[4 * k + 2], draws[4 * k + 3], width, height, speed)
  }

  lemma ScaleBounds(d: real, n: nat)
    requires 0.0 <= d < 1.0
    ensures 0.0 <= d * (n as real)
    ensures d * (n as real) <= n as real
  {
  }

  /** The edge wrap: below 0 jumps to the far edge, beyond the far edge to 0. */
  function Wrap(v: real, limit: real): (r: real)
    requires limit >= 0.0
    ensures 0.0 <= r <= limit
    ensures 0.0 <= v <= limit ==> r == v
    ensures v < 0.0 ==> r == limit
    ensures v > limit ==> r == 0.0
  {
    var a := if v < 0.0 then limit else v;
    if a > limit then 0.0 else a
  }

  /**
   * One frame of a particle: move by the velocity, then (when reactive) kick
   * the velocity by `(draw - 0.5) * force`, damp it by 0.98, and wrap the
   * position.
   */
  function Move(p: Particle, reactive: bool, force: real, dx: real, dy: real, width: nat, height: nat): (q: Particle)
    ensures 0.0 <= q.x <= width as real && 0.0 <= q.y <= height as real
    ensures q.life == p.life
  {
    var vx := if reactive then p.vx + (dx - 0.5) * force else p.vx;
    var vy := if reactive then p.vy + (dy - 0.5) * force else p.vy;
    Particle(Wrap(p.x + p.vx, width as real), Wrap(p.y + p.vy, height as real), vx * 0.98, vy * 0.98, p.life)
  }

  /** `dataArray.reduce((sum, val) => sum + val, 0) / dataArray.length / 255`. */
  function AverageAmplitude(data: seq<nat>): real
    requires |data| > 0
  {
    Sum(data) as real / |data| as real / 255.0
  }

  function Sum(data: seq<nat>): nat {
    if data == [] then 0 else Sum(data[..|data| - 1]) + data[|data| - 1]
  }

  /** The draws a frame uses: four per pushed particle, two per particle when reactive. */
  predicate EnoughDraws(have: nat, s: ParticleSettings, spawnDraws: seq<real>, kickDraws: seq<real>) {
    Draws(spawnDraws) && Draws(kickDraws) &&
    (have < s.count ==> |spawnDraws| >= 4 * (s.count - have)) &&
    (s.reactive ==> |kickDraws| >= 2 * s.count)
  }

  /** The j-th kick draw; a frame that is not reactive draws none. */
  function Kick(s: ParticleSettings, kickDraws: seq<real>, j: nat): real
    requires s.reactive ==> j < |kickDraws|
  {
    if s.reactive then kickDraws[j] else 0.0
  }

  /** The buffer after the pushes: the old particles, then one per missing slot. */
  function Grown(ps: seq<Particle>, s: ParticleSettings, spawnDraws: seq<real>, width: nat, height: nat): (r: seq<Particle>)
    requires |ps| < s.count ==> |spawnDraws| >= 4 * (s.count - |ps|)
    requires Draws(spawnDraws)
    ensures |r| == if |ps| < s.count then s.count else |ps|
    ensures r[..|ps|] == ps
  {
    if |ps| < s.count then
      ps + seq(s.count - |ps|, k requires 0 <= k < s.count - |ps| => Spawn(spawnDraws, k, width, height, s.speed))
    else ps
  }

  /** The buffer after a frame: the first `count` particles of the grown buffer, each moved. */
  function Advanced(ps: seq<Particle>, s: ParticleSettings, force: real, spawnDraws: seq<real>, kickDraws: seq<real>,
                    width: nat, height: nat): (r: seq<Particle>)
    requires EnoughDraws(|ps|, s, spawnDraws, kickDraws)
    ensures |r| == s.count
    ensures forall k :: 0 <= k < |r| ==> 0.0 <= r[k].x <= width as real && 0.0 <= r[k].y <= height as real
  {
    var grown := Grown(ps, s, spawnDraws, width, height);
    seq(s.count, k requires 0 <= k < s.count =>
      Move(grown[k], s.reactive, force, Kick(s, kickDraws, 2 * k), Kick(s, kickDraws, 2 * k + 1), width, height))
  }

  /** The particles that were already there keep their place: the first min(old, count) are the old ones moved. */
  lemma AdvancedKeepsOld(ps: seq<Particle>, s: ParticleSettings, force: real, spawnDraws: seq<real>, kickDraws: seq<real>,
                         width: nat, height: nat, k: nat)
    requires EnoughDraws(|ps|, s, spawnDraws, kickDraws)
    requires k < |ps| && k < s.count
    ensures Advanced(ps, s, force, spawnDraws, kickDraws, width, height)[k] ==
            Move(ps[k], s.reactive, force, Kick(s, kickDraws, 2 * k), Kick(s, kickDraws, 2 * k + 1), width, height)
  {
    var grown := Grown(ps, s, spawnDraws, width, height);
    assert grown[k] == grown[..|ps|][k] == ps[k];
  }

  /** `particlesRef`: the buffer `drawParticles` keeps between frames. */
  class ParticleField {
    var particles: seq<Particle>

    constructor ()
      ensures particles == []
    {
      particles := [];
    }

    /**
     * The upkeep in `drawParticles` for one frame of a `width` x `height`
     * canvas: push new particles while there are fewer than `count`, then
     * keep the first `count` and move each. `data` is the frame's spectrum;
     * the random draws are given.
     */
    method Frame(s: ParticleSettings, data: seq<nat>, spawnDraws: seq<real>, kickDraws: seq<real>, width: nat, height: nat)
      requires |data| > 0
      requires EnoughDraws(|particles|, s, spawnDraws, kickDraws)
      modifies this
      ensures particles == Advanced(old(particles), s, AverageAmplitude(data) * 5.0, spawnDraws, kickDraws, width, height)
      ensures |particles| == s.count
      ensures forall k :: 0 <= k < |particles| ==>
                0.0 <= particles[k].x <= width as real && 0.0 <= particles[k].y <= height as real
    {
      var start := |particles|;
      var i := start;
      while i < s.count
        invariant start <= i && (start <= s.count ==> i <= s.count)
        invariant i > start ==> i <= s.count
        invariant EnoughDraws(start, s, spawnDraws, kickDraws)
        invariant |particles| == i
        invariant particles == old(particles) + seq(i - start, k requires 0 <= k < i - start =>
                    Spawn(spawnDraws, k, width, height, s.speed))
      {
        particles := particles + [Spawn(spawnDraws, i - start, width, height, s.speed)];
        i := i + 1;
      }
      if start >= s.count {
        assert particles == old(particles);
      }
      assert particles == Grown(old(particles), s, spawnDraws, width, height);
      var force := AverageAmplitude(data) * 5.0;
      var kept := particles[..s.count];
      particles := seq(s.count, k requires 0 <= k < s.count =>
        Move(kept[k], s.reactive, force, Kick(s, kickDraws, 2 * k), Kick(s, kickDraws, 2 * k + 1), width, height));
    }

    /** Particle i is drawn with the brightness of its bin, which lies inside the spectrum. */
    method DrawBins(count: nat, len: nat) returns (bins: seq<int>)
      requires |particles| == count && len > 0
      ensures |bins| == |particles|
      ensures forall i :: 0 <= i < |bins| ==> bins[i] == ItemBin(i, count, len) && 0 <= bins[i] < len
    {
      bins := [];
      var i := 0;
      while i < |particles|
        invariant 0 <= i <= |particles|
        invariant |bins| == i
        invariant forall j :: 0 <= j < i ==> bins[j] == ItemBin(j, count, len) && 0 <= bins[j] < len
      {
        bins := bins + [ItemBin(i, count, len)];
        i := i + 1;
      }
    }
  }
}
