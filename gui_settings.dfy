/** The load-time part of the Battle GUI Core: the force-on-screen list and
    the motion table, read from the plugin-parameter table. */
module GuiSettings {
  import opened Wrappers
  import opened Text
  import opened GuiMotion

  /** The number of "Motion N" parameter groups the loading loop visits. */
  const MotionsRead: nat := 1

  function MotionKey(i: nat, field: string): string {
    "Motion " + NatToString(i) + " " + field
  }

  /** The lower-cased window name of motion `i`. */
  function MotionWindow(params: map<string, string>, i: nat): string {
    Lower(Param(params, MotionKey(i, "Window")))
  }

  function MotionAt(params: map<string, string>, i: nat): Motion {
    Motion(Param(params, MotionKey(i, "Condition")), Param(params, MotionKey(i, "Speed")),
           Param(params, MotionKey(i, "X Offset")), Param(params, MotionKey(i, "Y Offset")))
  }

  /** All five parameters of motion `i` are non-blank after trimming. */
  predicate Filled(params: map<string, string>, i: nat) {
    var m := MotionAt(params, i);
    |Trim(MotionWindow(params, i))| > 0 && |Trim(m.condition)| > 0 && |Trim(m.speed)| > 0
    && |Trim(m.x)| > 0 && |Trim(m.y)| > 0
  }

  /** What the loading loop reads of motion `i`. */
  datatype Slot = Slot(filled: bool, window: string, motion: Motion)

  function SlotAt(params: map<string, string>, i: nat): Slot {
    Slot(Filled(params, i), MotionWindow(params, i), MotionAt(params, i))
  }

  /** Motions 1 to `n` as the loop visits them. */
  function Slots(params: map<string, string>, n: nat): (r: seq<Slot>)
    ensures |r| == n
  {
    if n == 0 then [] else Slots(params, n - 1) + [SlotAt(params, n)]
  }

  /** One turn of the loading loop: a filled motion is appended under its
      window's name. */
  function Register(table: map<string, seq<Motion>>, s: Slot): map<string, seq<Motion>> {
    if s.filled then
      table[s.window := (if s.window in table then table[s.window] else []) + [s.motion]]
    else table
  }

  /** The table after the loop has visited `slots`. */
  function Fold(slots: seq<Slot>): map<string, seq<Motion>> {
    if slots == [] then map[] else Register(Fold(slots[..|slots| - 1]), slots[|slots| - 1])
  }

  /** The table after visiting motions 1 to `n`. */
  function MotionTable(params: map<string, string>, n: nat): map<string, seq<Motion>> {
    Fold(Slots(params, n))
  }

  /** Reference definition: the filled motions of `slots` that name window
      `t`, in order. */
  function MotionsFor(slots: seq<Slot>, t: string): seq<Motion> {
    if slots == [] then []
    else
      var s := slots[|slots| - 1];
      MotionsFor(slots[..|slots| - 1], t) + (if s.filled && s.window == t then [s.motion] else [])
  }

  /** The table holds exactly the filled motions, each under its window's
      lower-cased name, in parameter order; a window with none has no entry. */
  lemma {:induction false} FoldContents(slots: seq<Slot>, t: string)
    ensures t in Fold(slots) <==> MotionsFor(slots, t) != []
    ensures t in Fold(slots) ==> Fold(slots)[t] == MotionsFor(slots, t)
    decreases |slots|
  {
    if slots != [] {
      FoldContents(slots[..|slots| - 1], t);
    }
  }

  lemma MotionTableContents(params: map<string, string>, n: nat, t: string)
    ensures t in MotionTable(params, n) <==> MotionsFor(Slots(params, n), t) != []
    ensures t in MotionTable(params, n) ==> MotionTable(params, n)[t] == MotionsFor(Slots(params, n), t)
  {
    FoldContents(Slots(params, n), t);
  }

  /** Two parameter tables that agree on motion `i`'s five entries give it
      the same slot. */
  lemma SameSlot(p1: map<string, string>, p2: map<string, string>, i: nat)
    requires Param(p1, MotionKey(i, "Window")) == Param(p2, MotionKey(i, "Window"))
    requires Param(p1, MotionKey(i, "Condition")) == Param(p2, MotionKey(i, "Condition"))
    requires Param(p1, MotionKey(i, "Speed")) == Param(p2, MotionKey(i, "Speed"))
    requires Param(p1, MotionKey(i, "X Offset")) == Param(p2, MotionKey(i, "X Offset"))
    requires Param(p1, MotionKey(i, "Y Offset")) == Param(p2, MotionKey(i, "Y Offset"))
    ensures SlotAt(p1, i) == SlotAt(p2, i)
  {
    assert MotionAt(p1, i) == MotionAt(p2, i);
    assert MotionWindow(p1, i) == MotionWindow(p2, i);
  }

  /** Only motion 1 is read: two parameter tables that agree on motion 1's
      five entries give the same motion table, whatever motions 2 to 50 say. */
  lemma OnlyFirstMotionRead(p1: map<string, string>, p2: map<string, string>)
    requires Param(p1, MotionKey(1, "Window")) == Param(p2, MotionKey(1, "Window"))
    requires Param(p1, MotionKey(1, "Condition")) == Param(p2, MotionKey(1, "Condition"))
    requires Param(p1, MotionKey(1, "Speed")) == Param(p2, MotionKey(1, "Speed"))
    requires Param(p1, MotionKey(1, "X Offset")) == Param(p2, MotionKey(1, "X Offset"))
    requires Param(p1, MotionKey(1, "Y Offset")) == Param(p2, MotionKey(1, "Y Offset"))
    ensures MotionTable(p1, MotionsRead) == MotionTable(p2, MotionsRead)
  {
    SameSlot(p1, p2, 1);
    assert Slots(p1, 1) == Slots(p1, 0) + [SlotAt(p1, 1)];
    assert Slots(p2, 1) == Slots(p2, 0) + [SlotAt(p2, 1)];
  }

  /** The five reads of one turn of the motion-table loop and its
      all-filled test. */
  method ReadMotion(params: map<string, string>, i: nat) returns (filled: bool, t: string, m: Motion)
    ensures Slot(filled, t, m) == SlotAt(params, i)
  {
    t := Lower(Param(params, MotionKey(i, "Window")));
    var c := Param(params, MotionKey(i, "Condition"));
    var s := Param(params, MotionKey(i, "Speed"));
    var x := Param(params, MotionKey(i, "X Offset"));
    var y := Param(params, MotionKey(i, "Y Offset"));
    filled := |Trim(t)| > 0 && |Trim(c)| > 0 && |Trim(s)| > 0 && |Trim(x)| > 0 && |Trim(y)| > 0;
    m := Motion(c, s, x, y);
  }

  /** One more slot visited: the table is the earlier one with it
      registered. */
  lemma FoldSnoc(slots: seq<Slot>, slot: Slot)
    ensures Fold(slots + [slot]) == Register(Fold(slots), slot)
  {
    assert (slots + [slot])[..|slots|] == slots;
  }

  lemma SlotsStep(params: map<string, string>, i: nat, slot: Slot)
    requires i >= 1 && slot == SlotAt(params, i)
    ensures Fold(Slots(params, i)) == Register(Fold(Slots(params, i - 1)), slot)
  {
    FoldSnoc(Slots(params, i - 1), slot);
  }

  /** The body of one turn: a filled motion is pushed onto its window's
      list, the list created first when the window has none. */
  method AddMotion(motions0: map<string, seq<Motion>>, filled: bool, t: string, m: Motion)
    returns (motions: map<string, seq<Motion>>)
    ensures motions == Register(motions0, Slot(filled, t, m))
  {
    motions := motions0;
    if filled {
      if t !in motions {
        motions := motions[t := []];
      }
      motions := motions[t := motions[t] + [m]];
    }
  }

  /** The motion-table loop: motions 1 to `MotionsRead`, each appended under
      its lower-cased window name when all five of its fields are filled. */
  method BuildMotionTable(params: map<string, string>) returns (motions: map<string, seq<Motion>>)
    ensures motions == MotionTable(params, MotionsRead)
  {
    motions := map[];
    var i := 1;
    while i <= MotionsRead
      invariant 1 <= i <= MotionsRead + 1
      invariant motions == Fold(Slots(params, i - 1))
    {
      var filled, t, m := ReadMotion(params, i);
      motions := AddMotion(motions, filled, t, m);
      SlotsStep(params, i, Slot(filled, t, m));
      i := i + 1;
    }
  }

  /** The force list: the parameter split at commas (whitespace around each
      comma dropped), then lower-cased entry by entry in place. */
  method LoadForceScreens(raw: string) returns (list: seq<string>)
    ensures list == LowerEach(SplitList(raw))
  {
    var pieces := SplitList(raw);
    var a := new string[|pieces|](i requires 0 <= i < |pieces| => pieces[i]);
    assert a[..] == pieces;
    LowerInPlace(a);
    list := a[..];
  }

  /** The loop that lower-cases every entry of the split list in place. */
  method LowerInPlace(a: array<string>)
    modifies a
    ensures a[..] == LowerEach(old(a[..]))
  {
    for i := 0 to a.Length
      invariant forall j :: 0 <= j < i ==> a[j] == Lower(old(a[j]))
      invariant forall j :: i <= j < a.Length ==> a[j] == old(a[j])
    {
      a[i] := Lower(a[i]);
    }
  }

  /** `contains` on the force list. */
  predicate StaysOnScreen(forceScreens: seq<string>, name: string) {
    name in forceScreens
  }

  /** A window stays on screen iff its name matches, ignoring case, one of
      the names the parameter lists with ", " between them. */
  lemma ForceListMembership(names: seq<string>, name: string)
    requires |names| >= 1
    requires forall i :: 0 <= i < |names| ==> CommaFree(names[i]) && Tight(names[i])
    ensures StaysOnScreen(LowerEach(SplitList(JoinWith(names, ", "))), Lower(name))
            <==> exists i :: 0 <= i < |names| && Lower(names[i]) == Lower(name)
  {
    SplitListJoin(names);
    var list := LowerEach(names);
    if Lower(name) in list {
      var i :| 0 <= i < |list| && list[i] == Lower(name);
      assert Lower(names[i]) == Lower(name);
    }
  }

  /** The configuration the plugin reads once at load. */
  method LoadConfig(params: map<string, string>) returns (config: Config)
    ensures config.forceScreens == LowerEach(SplitList(Param(params, "Force Within Screen")))
    ensures config.motionSpeed == Param(params, "Motion Reset Speed")
    ensures config.moveDistance == ParseInt(Param(params, "Instant Move Distance"))
    ensures config.motions == MotionTable(params, MotionsRead)
  {
    var forceScreens := LoadForceScreens(Param(params, "Force Within Screen"));
    var motions := BuildMotionTable(params);
    config := Config(forceScreens, Param(params, "Motion Reset Speed"),
                     ParseInt(Param(params, "Instant Move Distance")), motions);
  }
}
