/**
 * The theme animation engine of the anime tracker page: four background
 * variants (falling sakura petals, pulsing purple circles, drifting stars,
 * rising bubbles), each a two-state machine over an `active` flag, and the
 * coordinator that stops all four and starts the one a theme name selects.
 *
 * Particle positions, sizes and speeds are random floating-point values
 * redrawn every frame; the model keeps only how many entities a variant owns
 * and, for the petal variant, that `start` replaces them with new ones.
 */
module ThemeAnimation {
  import opened Wrappers

  /** The four variant classes: SakuraPetals, PurpleBackground, DarkStars, LightBubbles. */
  datatype Kind = Sakura | Purple | Dark | Light

  /** Entity counts fixed by each variant (this.numPetals, numCircles, numStars, numBubbles). */
  const NumPetals: nat := 40
  const NumCircles: nat := 30
  const NumStars: nat := 100
  const NumBubbles: nat := 40

  /** How many entities a variant's constructor builds; petals are built by `start` instead. */
  function InitialCount(k: Kind): nat {
    match k
    case Sakura => 0
    case Purple => NumCircles
    case Dark => NumStars
    case Light => NumBubbles
  }

  /** The variant a theme name stands for; unknown names stand for none. */
  function ThemeKind(theme: string): Option<Kind> {
    match theme
    case "sakura" => Some(Sakura)
    case "default" => Some(Purple)
    case "dark" => Some(Dark)
    case "light" => Some(Light)
    case _ => None
  }

  // ---------------------------------------------------------------------------
  // The lifecycle of one variant, on values

  /** What the model keeps of a variant: its flag and the size of its entity collection. */
  datatype VariantState = VariantState(active: bool, count: nat)

  datatype Call = StartCall | StopCall

  /** `start()`: a no-op when active; otherwise sets the flag, and the petal variant rebuilds its petals. */
  function Started(k: Kind, s: VariantState): VariantState {
    if s.active then s
    else VariantState(true, if k == Sakura then NumPetals else s.count)
  }

  /** `stop()`: clears the flag unconditionally and keeps the entities. */
  function Stopped(s: VariantState): VariantState {
    s.(active := false)
  }

  function Apply(k: Kind, s: VariantState, c: Call): VariantState {
    match c
    case StartCall => Started(k, s)
    case StopCall => Stopped(s)
  }

  /** The state after issuing `calls` in order, starting from `s`. */
  function Run(k: Kind, s: VariantState, calls: seq<Call>): VariantState
    decreases |calls|
  {
    if calls == [] then s else Run(k, Apply(k, s, calls[0]), calls[1..])
  }

  /** After any non-empty sequence of calls a variant is active exactly when the last call was `start`. */
  lemma {:induction false} RunActiveIsLastCall(k: Kind, s: VariantState, calls: seq<Call>)
    requires calls != []
    ensures Run(k, s, calls).active <==> calls[|calls| - 1] == StartCall
    decreases |calls|
  {
    if |calls| > 1 {
      RunActiveIsLastCall(k, Apply(k, s, calls[0]), calls[1..]);
    }
  }

  /** Issuing the same call twice in a row has no effect beyond issuing it once. */
  lemma {:induction false} RunStutter(k: Kind, s: VariantState, p: seq<Call>, c: Call, q: seq<Call>)
    ensures Run(k, s, p + [c, c] + q) == Run(k, s, p + [c] + q)
    decreases |p|
  {
    if p == [] {
      assert p + [c, c] + q == [c] + ([c] + q);
      assert ([c] + ([c] + q))[1..] == [c] + q;
      assert ([c] + q)[1..] == q;
      assert Apply(k, Apply(k, s, c), c) == Apply(k, s, c);
    } else {
      assert (p + [c, c] + q)[1..] == p[1..] + [c, c] + q;
      assert (p + [c] + q)[1..] == p[1..] + [c] + q;
      RunStutter(k, Apply(k, s, p[0]), p[1..], c, q);
    }
  }

  /** The circle, star and bubble variants never change how many entities they own. */
  lemma {:induction false} RunKeepsEntities(k: Kind, s: VariantState, calls: seq<Call>)
    requires k != Sakura
    ensures Run(k, s, calls).count == s.count
    decreases |calls|
  {
    if calls != [] {
      RunKeepsEntities(k, Apply(k, s, calls[0]), calls[1..]);
    }
  }

  /**
   * The petal variant owns either what it started with or exactly NumPetals
   * petals, and exactly NumPetals once a `start` has found it inactive: a
   * start on an inactive initial state, or a start after some stop.
   */
  lemma {:induction false} RunPetalCount(s: VariantState, calls: seq<Call>)
    ensures Run(Sakura, s, calls).count == s.count || Run(Sakura, s, calls).count == NumPetals
    ensures s.count == NumPetals || (!s.active && StartCall in calls) ==> Run(Sakura, s, calls).count == NumPetals
    ensures (exists i, j :: 0 <= i < j < |calls| && calls[i] == StopCall && calls[j] == StartCall)
            ==> Run(Sakura, s, calls).count == NumPetals
    decreases |calls|
  {
    if calls != [] {
      var s' := Apply(Sakura, s, calls[0]);
      var rest := calls[1..];
      RunPetalCount(s', rest);
      if !s.active && StartCall in calls && calls[0] != StartCall {
        assert calls == [calls[0]] + rest;
        assert StartCall in rest;
      }
      if exists i, j :: 0 <= i < j < |calls| && calls[i] == StopCall && calls[j] == StartCall {
        var i, j :| 0 <= i < j < |calls| && calls[i] == StopCall && calls[j] == StartCall;
        if i == 0 {
          assert !s'.active && rest[j - 1] == StartCall;
        } else {
          assert rest[i - 1] == StopCall && rest[j - 1] == StartCall;
        }
      }
    }
  }

  // ---------------------------------------------------------------------------
  // The theme switch coordinator, on values

  /** The four variant objects the page creates: sakura, purpleBg, darkBg, lightBg. */
  datatype Canvases = Canvases(sakura: VariantState, purple: VariantState, dark: VariantState, light: VariantState)

  function StateOf(c: Canvases, k: Kind): VariantState {
    match k
    case Sakura => c.sakura
    case Purple => c.purple
    case Dark => c.dark
    case Light => c.light
  }

  function ActiveCount(c: Canvases): nat {
    (if c.sakura.active then 1 else 0) + (if c.purple.active then 1 else 0)
    + (if c.dark.active then 1 else 0) + (if c.light.active then 1 else 0)
  }

  /** `switchThemeCanvas(theme)`: stop all four, then start the one the name selects, if any. */
  function Switched(theme: string, c: Canvases): Canvases {
    var off := Canvases(Stopped(c.sakura), Stopped(c.purple), Stopped(c.dark), Stopped(c.light));
    if theme == "sakura" then off.(sakura := Started(Sakura, off.sakura))
    else if theme == "default" then off.(purple := Started(Purple, off.purple))
    else if theme == "dark" then off.(dark := Started(Dark, off.dark))
    else if theme == "light" then off.(light := Started(Light, off.light))
    else off
  }

  /**
   * After a switch exactly the variant the theme names is active (none for
   * an unknown name), so at most one is; the circle, star and bubble
   * variants keep their entities, and the petal variant is rebuilt exactly
   * when it is the one started.
   */
  lemma SwitchSelects(theme: string, c: Canvases)
    ensures forall k :: StateOf(Switched(theme, c), k).active <==> ThemeKind(theme) == Some(k)
    ensures ActiveCount(Switched(theme, c)) == if ThemeKind(theme).Some? then 1 else 0
    ensures forall k :: k != Sakura ==> StateOf(Switched(theme, c), k).count == StateOf(c, k).count
    ensures Switched(theme, c).sakura.count == if theme == "sakura" then NumPetals else c.sakura.count
  {
  }

  /** Switching twice to the same theme leaves the same abstract state as switching once. */
  lemma SwitchIdempotent(theme: string, c: Canvases)
    ensures Switched(theme, Switched(theme, c)) == Switched(theme, c)
  {
  }

  /** The state after the page handles the theme names `themes` in order. */
  function RunSwitches(c: Canvases, themes: seq<string>): Canvases
    decreases |themes|
  {
    if themes == [] then c else RunSwitches(Switched(themes[0], c), themes[1..])
  }

  /** After any non-empty series of switches, the active variant is the one the last theme names. */
  lemma {:induction false} RunSwitchesFollowsLast(c: Canvases, themes: seq<string>)
    requires themes != []
    ensures forall k :: StateOf(RunSwitches(c, themes), k).active <==> ThemeKind(themes[|themes| - 1]) == Some(k)
    decreases |themes|
  {
    if |themes| == 1 {
      SwitchSelects(themes[0], c);
    } else {
      RunSwitchesFollowsLast(Switched(themes[0], c), themes[1..]);
    }
  }

  /** The single-active invariant holds across every series of switches. */
  lemma {:induction false} RunSwitchesAtMostOne(c: Canvases, themes: seq<string>)
    requires ActiveCount(c) <= 1
    ensures ActiveCount(RunSwitches(c, themes)) <= 1
    decreases |themes|
  {
    if themes != [] {
      SwitchSelects(themes[0], c);
      RunSwitchesAtMostOne(Switched(themes[0], c), themes[1..]);
    }
  }

  /** No series of switches changes how many circles, stars or bubbles there are. */
  lemma {:induction false} RunSwitchesKeepsEntities(c: Canvases, themes: seq<string>, k: Kind)
    requires k != Sakura
    ensures StateOf(RunSwitches(c, themes), k).count == StateOf(c, k).count
    decreases |themes|
  {
    if themes != [] {
      SwitchSelects(themes[0], c);
      RunSwitchesKeepsEntities(Switched(themes[0], c), themes[1..], k);
    }
  }

  // ---------------------------------------------------------------------------
  // The variant objects and the coordinator, in place

  /** A petal, circle, star or bubble; its coordinates are not modelled. */
  class Entity {
    constructor () { }
  }

  /** Builds `n` new entities, as the push loops of the constructors and of `SakuraPetals.start` do. */
  method NewEntities(n: nat) returns (es: seq<Entity>)
    ensures |es| == n
    ensures forall e :: e in es ==> fresh(e)
    ensures forall i, j :: 0 <= i < j < |es| ==> es[i] != es[j]
  {
    es := [];
    for i := 0 to n
      invariant |es| == i
      invariant forall e :: e in es ==> fresh(e)
      invariant forall i, j :: 0 <= i < j < |es| ==> es[i] != es[j]
    {
      var e := new Entity();
      es := es + [e];
    }
  }

  /** One animation variant; `kind` says which of the four classes it is. */
  class Variant {
    const kind: Kind
    var active: bool
    var entities: seq<Entity>

    function State(): VariantState
      reads this
    {
      VariantState(active, |entities|)
    }

    /** Starts inactive; every kind but the petals builds its entities here. */
    constructor (k: Kind)
      ensures kind == k
      ensures State() == VariantState(false, InitialCount(k))
      ensures forall e :: e in entities ==> fresh(e)
    {
      var es := NewEntities(InitialCount(k));
      kind := k;
      active := false;
      entities := es;
    }

    /** `start()`: guarded by the flag; the petal variant replaces its petals with NumPetals new ones. */
    method Start()
      modifies this
      ensures State() == Started(kind, old(State()))
      ensures old(active) || kind != Sakura ==> entities == old(entities)
      ensures !old(active) && kind == Sakura ==> forall e :: e in entities ==> fresh(e)
    {
      if active {
        return;
      }
      active := true;
      if kind == Sakura {
        entities := NewEntities(NumPetals);
      }
    }

    /** `stop()`: clears the flag whatever its value; the entities stay. */
    method Stop()
      modifies this`active
      ensures State() == Stopped(old(State()))
      ensures entities == old(entities)
    {
      active := false;
    }

    /** One call of `animate`: an inactive variant returns at once; an active one asks for the next frame. */
    method Animate() returns (rescheduled: bool)
      ensures rescheduled <==> active
    {
      if !active {
        return false;
      }
      rescheduled := true;
    }

    /**
     * Cancellation is cooperative: `stop` does not withdraw a frame already
     * requested, but that frame finds the flag cleared and does not reschedule.
     */
    method StopThenFrame() returns (rescheduled: bool)
      modifies this`active
      ensures !rescheduled && !active
      ensures entities == old(entities)
    {
      Stop();
      rescheduled := Animate();
    }
  }

  /** The four variant objects of the page and `switchThemeCanvas`. */
  class ThemeCanvas {
    const sakura: Variant
    const purpleBg: Variant
    const darkBg: Variant
    const lightBg: Variant

    /** Each field holds the variant of its kind; distinct kinds make them four distinct objects. */
    predicate Valid() {
      sakura.kind == Sakura && purpleBg.kind == Purple && darkBg.kind == Dark && lightBg.kind == Light
    }

    function VariantOf(k: Kind): (v: Variant)
      requires Valid()
      ensures v.kind == k
    {
      match k
      case Sakura => sakura
      case Purple => purpleBg
      case Dark => darkBg
      case Light => lightBg
    }

    function Snapshot(): Canvases
      reads sakura, purpleBg, darkBg, lightBg
    {
      Canvases(sakura.State(), purpleBg.State(), darkBg.State(), lightBg.State())
    }

    constructor ()
      ensures Valid()
      ensures Snapshot() == Canvases(VariantState(false, 0), VariantState(false, NumCircles),
                                     VariantState(false, NumStars), VariantState(false, NumBubbles))
      ensures fresh(sakura) && fresh(purpleBg) && fresh(darkBg) && fresh(lightBg)
    {
      sakura := new Variant(Sakura);
      purpleBg := new Variant(Purple);
      darkBg := new Variant(Dark);
      lightBg := new Variant(Light);
    }

    /** `switchThemeCanvas(theme)`: stops all four variants, then starts the one `theme` names. */
    method SwitchThemeCanvas(theme: string)
      requires Valid()
      modifies sakura, purpleBg, darkBg, lightBg
      ensures Snapshot() == Switched(theme, old(Snapshot()))
      ensures sakura.active == (theme == "sakura") && purpleBg.active == (theme == "default")
      ensures darkBg.active == (theme == "dark") && lightBg.active == (theme == "light")
      ensures purpleBg.entities == old(purpleBg.entities) && darkBg.entities == old(darkBg.entities)
      ensures lightBg.entities == old(lightBg.entities)
      ensures theme != "sakura" ==> sakura.entities == old(sakura.entities)
      ensures theme == "sakura" ==> |sakura.entities| == NumPetals && forall e :: e in sakura.entities ==> fresh(e)
    {
      sakura.Stop();
      purpleBg.Stop();
      darkBg.Stop();
      lightBg.Stop();

      if theme == "sakura" {
        sakura.Start();
      } else if theme == "default" {
        purpleBg.Start();
      } else if theme == "dark" {
        darkBg.Start();
      } else if theme == "light" {
        lightBg.Start();
      }
    }
  }

  /**
   * A theme change followed by the next frame of variant `k`: only the
   * variant the theme names keeps its animation loop going.
   */
  method SwitchThenFrame(page: ThemeCanvas, theme: string, k: Kind) returns (rescheduled: bool)
    requires page.Valid()
    modifies page.sakura, page.purpleBg, page.darkBg, page.lightBg
    ensures rescheduled <==> ThemeKind(theme) == Some(k)
  {
    page.SwitchThemeCanvas(theme);
    var v := page.VariantOf(k);
    rescheduled := v.Animate();
  }

  /**
   * A page load followed by four theme changes ("default", "sakura", an
   * unknown name, and "dark" with its next frame), then a stop with the frame
   * that was already pending, checked against the contracts above.
   */
  method ThemeScenario() {
    var page := new ThemeCanvas();
    page.SwitchThemeCanvas("default");
    assert page.purpleBg.active && !page.sakura.active;
    page.SwitchThemeCanvas("sakura");
    assert page.sakura.active && !page.purpleBg.active && |page.sakura.entities| == NumPetals;
    assert |page.purpleBg.entities| == NumCircles;
    page.SwitchThemeCanvas("neon");
    assert ActiveCount(page.Snapshot()) == 0;
    var frame := SwitchThenFrame(page, "dark", Dark);
    assert frame;
    frame := page.darkBg.StopThenFrame();
    assert !frame;
  }
}
