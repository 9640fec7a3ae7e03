/** The main studio's settings, the reset button, and the keyboard
    shortcuts, each key a transition from the old settings to the new. */
module StudioState {
  import opened Vectors
  import StudioDeform

  datatype Shape =
    | Cube | Sphere | Cylinder | Donut | Cone | TorusKnot
    | Icosahedron | Dodecahedron | Capsule | Octahedron | Tetrahedron

  datatype MaterialType =
    | Matte | Metal | Glass | Velvet | Toon | Wireframe
    | Plastic | Porcelain | Normal | Lambert

  /** The order in which key `c` walks the shapes. */
  const Shapes: seq<Shape> :=
    [Cube, Sphere, Cylinder, Donut, Cone, TorusKnot,
     Icosahedron, Dodecahedron, Capsule, Octahedron, Tetrahedron]

  /** The order in which key `m` walks the materials. */
  const Materials: seq<MaterialType> :=
    [Matte, Plastic, Metal, Glass, Porcelain, Velvet, Toon, Lambert, Normal, Wireframe]

  /** Every setting that the reset button restores.  Rotations are whole
      degrees: their sliders move in steps of 1 and the keys in steps of 5. */
  datatype Settings = Settings(
    shape: Shape,
    twist: real,
    roundness: real,
    taper: real,
    noise: real,
    rotationX: int,
    rotationY: int,
    rotationZ: int,
    mainColor: string,
    shadowTint: string,
    lightColor: string,
    lightX: real,
    lightY: real,
    lightZ: real,
    shadowIntensity: real,
    ambientIntensity: real,
    materialType: MaterialType,
    donutTube: real,
    knotP: real,
    knotQ: real,
    isTransparent: bool,
    backgroundColor: string,
    backgroundOpacity: real,
    wireframeOverlay: bool)

  /** The component's whole state: the settings, plus the export size and
      the scene-ready flag, which the reset button does not touch. */
  datatype AppState = AppState(settings: Settings, exportSize: int, isSceneReady: bool)

  const DefaultState: Settings := Settings(
    Cube, 0.0, 0.1, 0.0, 0.0, 0, 0, 0,
    "#4A90E2", "#1E3A5F", "#FFFFFF",
    5.0, 10.0, 7.5, 0.8, 0.5,
    Matte, 0.4, 2.0, 3.0, true, "#FFFFFF", 1.0, false)

  /** The state the component starts in. */
  const InitialState: AppState := AppState(DefaultState, 1024, false)

  // ---------------------------------------------------------------------
  // Cycling through a list with indexOf(prev) + 1 modulo the length

  /** JavaScript's Array.prototype.indexOf: the first index holding `x`,
      or -1 when there is none. */
  function IndexOf<T(==)>(s: seq<T>, x: T): (r: int)
    ensures -1 <= r < |s|
    ensures r == -1 <==> x !in s
    ensures 0 <= r ==> s[r] == x && x !in s[..r]
  {
    if |s| == 0 then -1
    else if s[0] == x then 0
    else
      var k := IndexOf(s[1..], x);
      assert k >= 0 ==> s[1..][..k] == s[1..k + 1];
      if k < 0 then -1 else k + 1
  }

  ghost predicate Distinct<T>(s: seq<T>)
  {
    forall i, j :: 0 <= i < j < |s| ==> s[i] != s[j]
  }

  /** In a list without repetitions, indexOf finds an element's own index. */
  lemma IndexOfDistinct<T>(s: seq<T>, i: int)
    requires Distinct(s) && 0 <= i < |s|
    ensures IndexOf(s, s[i]) == i
  {
  }

  /** The element after `prev`, wrapping from the last back to the first; a
      value not in the list goes to the first (indexOf gives -1). */
  function Cycle<T(==)>(list: seq<T>, prev: T): (r: T)
    requires |list| > 0
    ensures r in list
    ensures prev !in list ==> r == list[0]
    ensures 0 <= IndexOf(list, prev) < |list| - 1 ==> r == list[IndexOf(list, prev) + 1]
    ensures IndexOf(list, prev) == |list| - 1 ==> r == list[0]
  {
    var k := IndexOf(list, prev);
    WrapIndex(k + 1, |list|);
    list[(k + 1) % |list|]
  }

  /** For 0 <= a <= n, a % n is a itself, or 0 when a reaches n. */
  lemma WrapIndex(a: int, n: int)
    requires 0 <= a <= n && 0 < n
    ensures a % n == if a < n then a else 0
  {
    if a == n {
      assert a == 1 * n + 0;
    }
  }

  /** `n` presses of a cycling key. */
  function CycleN<T(==)>(list: seq<T>, n: nat, x: T): T
    requires |list| > 0
  {
    if n == 0 then x else Cycle(list, CycleN(list, n - 1, x))
  }

  /** The index `n` places after `i` in a list of length `len`, for at most
      one turn. */
  function Advance(i: int, n: nat, len: int): int
  {
    if i + n < len then i + n else i + n - len
  }

  /** Within one turn, `n` presses move the position in the list `n` places
      forward, wrapping once past the end. */
  lemma {:induction false} CycleNIndex<T>(list: seq<T>, n: nat, x: T)
    requires Distinct(list) && x in list && n <= |list|
    ensures CycleN(list, n, x) in list
    ensures IndexOf(list, CycleN(list, n, x)) == Advance(IndexOf(list, x), n, |list|)
  {
    if n > 0 {
      CycleNIndex(list, n - 1, x);
      var y := CycleN(list, n - 1, x);
      var j := IndexOf(list, y);
      var k := if j < |list| - 1 then j + 1 else 0;
      assert CycleN(list, n, x) == list[k];
      IndexOfDistinct(list, k);
    }
  }

  /** Pressing a cycling key as many times as the list is long returns to
      the element one started from. */
  lemma FullCycle<T>(list: seq<T>, x: T)
    requires Distinct(list) && x in list
    ensures CycleN(list, |list|, x) == x
  {
    CycleNIndex(list, |list|, x);
    var y := CycleN(list, |list|, x);
    assert list[IndexOf(list, y)] == y;
  }

  /** Every element of the list is reached from any other within one turn. */
  lemma CycleReachesAll<T>(list: seq<T>, x: T, y: T)
    requires Distinct(list) && x in list && y in list
    ensures exists n: nat :: n < |list| && CycleN(list, n, x) == y
  {
    var i, j := IndexOf(list, x), IndexOf(list, y);
    var n: nat := if i <= j then j - i else j - i + |list|;
    CycleNIndex(list, n, x);
    var z := CycleN(list, n, x);
    assert list[IndexOf(list, z)] == z;
  }

  /** Both lists name every value of their type exactly once. */
  lemma ListsAreComplete()
    ensures |Shapes| == 11 && Distinct(Shapes) && forall s: Shape :: s in Shapes
    ensures |Materials| == 10 && Distinct(Materials) && forall m: MaterialType :: m in Materials
  {
    forall s: Shape ensures s in Shapes {
      match s
      case Cube => assert Shapes[0] == s;
      case Sphere => assert Shapes[1] == s;
      case Cylinder => assert Shapes[2] == s;
      case Donut => assert Shapes[3] == s;
      case Cone => assert Shapes[4] == s;
      case TorusKnot => assert Shapes[5] == s;
      case Icosahedron => assert Shapes[6] == s;
      case Dodecahedron => assert Shapes[7] == s;
      case Capsule => assert Shapes[8] == s;
      case Octahedron => assert Shapes[9] == s;
      case Tetrahedron => assert Shapes[10] == s;
    }
    forall m: MaterialType ensures m in Materials {
      match m
      case Matte => assert Materials[0] == m;
      case Plastic => assert Materials[1] == m;
      case Metal => assert Materials[2] == m;
      case Glass => assert Materials[3] == m;
      case Porcelain => assert Materials[4] == m;
      case Velvet => assert Materials[5] == m;
      case Toon => assert Materials[6] == m;
      case Lambert => assert Materials[7] == m;
      case Normal => assert Materials[8] == m;
      case Wireframe => assert Materials[9] == m;
    }
  }

  // ---------------------------------------------------------------------
  // Rotation steps

  /** JavaScript's `%`: the remainder takes the sign of the dividend. */
  function JsRem(a: int, n: int): (r: int)
    requires n > 0
    ensures a >= 0 ==> 0 <= r < n && r == a % n
    ensures a < 0 ==> -n < r <= 0
  {
    if a >= 0 then a % n else -((-a) % n)
  }

  /** For a negative dividend JavaScript's remainder is the negated
      remainder of its magnitude. */
  lemma JsRemOdd(a: int, n: int)
    requires n > 0
    ensures JsRem(-a, n) == -JsRem(a, n)
  {
  }

  /** `(prev + 5) % 360`, the step of keys q, w and e.  For a rotation the
      slider can hold it lands in [0, 360), 5 degrees further round. */
  function RotateUp(prev: int): (r: int)
    ensures 0 <= prev <= 360 ==> 0 <= r < 360 && r == (prev + 5) % 360
  {
    JsRem(prev + 5, 360)
  }

  /** `(prev - 5 + 360) % 360`, the step of keys a, s and d.  For a rotation
      the slider can hold it lands in [0, 360), 5 degrees back round. */
  function RotateDown(prev: int): (r: int)
    ensures 0 <= prev <= 360 ==> 0 <= r < 360 && r == (prev - 5) % 360
  {
    JsRem(prev - 5 + 360, 360)
  }

  /** For a rotation in [0, 360) the two steps undo each other. */
  lemma RotationStepsInverse(prev: int)
    requires 0 <= prev < 360
    ensures RotateDown(RotateUp(prev)) == prev
    ensures RotateUp(RotateDown(prev)) == prev
  {
    if prev < 355 {
      assert RotateUp(prev) == prev + 5;
    } else {
      assert RotateUp(prev) == prev - 355;
    }
    if prev < 5 {
      assert RotateDown(prev) == prev + 355;
    } else {
      assert RotateDown(prev) == prev - 5;
    }
  }

  // ---------------------------------------------------------------------
  // Reset and key handling

  /** The reset button: each setting back to its default, the export size
      and the scene-ready flag left alone. */
  function Reset(st: AppState): (r: AppState)
    ensures r.settings == DefaultState
    ensures r.exportSize == st.exportSize && r.isSceneReady == st.isSceneReady
  {
    AppState(DefaultState, st.exportSize, st.isSceneReady)
  }

  function LowerChar(c: char): char
  {
    if 'A' <= c <= 'Z' then (c as int + 32) as char else c
  }

  /** Helper for stating case-insensitivity: the upper-case letter. */
  function UpperChar(c: char): char
  {
    if 'a' <= c <= 'z' then (c as int - 32) as char else c
  }

  /** String.prototype.toLowerCase on the letters A to Z: no upper-case
      letter is left, each one becomes the same letter in lower case, and
      every other character is kept. */
  function Lower(s: string): (r: string)
    ensures |r| == |s|
    ensures forall i :: 0 <= i < |r| ==> !('A' <= r[i] <= 'Z')
    ensures forall i :: 0 <= i < |s| && 'A' <= s[i] <= 'Z' ==> r[i] as int == s[i] as int - 'A' as int + 'a' as int
    ensures forall i :: 0 <= i < |s| && !('A' <= s[i] <= 'Z') ==> r[i] == s[i]
  {
    seq(|s|, i requires 0 <= i < |s| => LowerChar(s[i]))
  }

  /** Helper for stating case-insensitivity: the key with its letters a to
      z upper-cased. */
  function Upper(s: string): string
  {
    seq(|s|, i requires 0 <= i < |s| => UpperChar(s[i]))
  }

  datatype Option<T> = None | Some(value: T)

  datatype Axis = X | Y | Z

  /** What a recognised key asks for. */
  datatype Command =
    | Export
    | ResetAll
    | NextShape
    | NextMaterial
    | Rotate(axis: Axis, up: bool)

  /** The (lower-case) key each command is bound to. */
  function KeyName(c: Command): string
  {
    match c
    case Export => "enter"
    case ResetAll => "r"
    case NextShape => "c"
    case NextMaterial => "m"
    case Rotate(X, true) => "q"
    case Rotate(X, false) => "a"
    case Rotate(Y, true) => "w"
    case Rotate(Y, false) => "s"
    case Rotate(Z, true) => "e"
    case Rotate(Z, false) => "d"
  }

  /** The switch on the lower-cased key; None for every other key. */
  function ParseKey(key: string): (r: Option<Command>)
    ensures r.Some? ==> Lower(key) == KeyName(r.value)
  {
    var k := Lower(key);
    if k == "enter" then Some(Export)
    else if k == "r" then Some(ResetAll)
    else if k == "c" then Some(NextShape)
    else if k == "m" then Some(NextMaterial)
    else if k == "q" then Some(Rotate(X, true))
    else if k == "a" then Some(Rotate(X, false))
    else if k == "w" then Some(Rotate(Y, true))
    else if k == "s" then Some(Rotate(Y, false))
    else if k == "e" then Some(Rotate(Z, true))
    else if k == "d" then Some(Rotate(Z, false))
    else None
  }

  /** A key is recognised exactly when its lower-case form is the name of a
      command, and then it is that command. */
  lemma ParseKeyExact(key: string, c: Command)
    ensures ParseKey(key) == Some(c) <==> Lower(key) == KeyName(c)
  {
  }

  /** A string without the letters A to Z is its own lower-case form. */
  lemma LowerOfLowerCase(s: string)
    requires forall i :: 0 <= i < |s| ==> !('A' <= s[i] <= 'Z')
    ensures Lower(s) == s
  {
  }

  /** Lower-casing twice is lower-casing once. */
  lemma LowerIdempotent(s: string)
    ensures Lower(Lower(s)) == Lower(s)
  {
    LowerOfLowerCase(Lower(s));
  }

  /** Upper-casing first makes no difference to the lower-case form. */
  lemma LowerOfUpper(s: string)
    ensures Lower(Upper(s)) == Lower(s)
  {
    var a, b := Lower(Upper(s)), Lower(s);
    assert |a| == |b|;
    forall i | 0 <= i < |s| ensures a[i] == b[i] {
      assert Upper(s)[i] == UpperChar(s[i]);
    }
  }

  /** Matching ignores case: an upper-cased key does what the key does. */
  lemma KeyMatchingIgnoresCase(st: AppState, key: string)
    ensures ParseKey(Upper(key)) == ParseKey(key)
    ensures KeyDown(st, Upper(key)) == KeyDown(st, key)
  {
    LowerOfUpper(key);
  }

  /** The step of one rotation key; it keeps a slider value in range. */
  function Step(prev: int, up: bool): (r: int)
    ensures 0 <= prev <= 360 ==> 0 <= r < 360
  {
    if up then RotateUp(prev) else RotateDown(prev)
  }

  /** The settings update a command makes. */
  function Apply(st: AppState, c: Command): (r: AppState)
    ensures r.exportSize == st.exportSize && r.isSceneReady == st.isSceneReady
  {
    var s := st.settings;
    match c
    case Export => st
    case ResetAll => Reset(st)
    case NextShape => st.(settings := s.(shape := Cycle(Shapes, s.shape)))
    case NextMaterial => st.(settings := s.(materialType := Cycle(Materials, s.materialType)))
    case Rotate(X, up) => st.(settings := s.(rotationX := Step(s.rotationX, up)))
    case Rotate(Y, up) => st.(settings := s.(rotationY := Step(s.rotationY, up)))
    case Rotate(Z, up) => st.(settings := s.(rotationZ := Step(s.rotationZ, up)))
  }

  /** The result of one keydown event: the new state, whether the browser's
      default action was suppressed, and whether an export was started. */
  datatype KeyOutcome = KeyOutcome(state: AppState, defaultPrevented: bool, exportRequested: bool)

  function KeyDown(st: AppState, key: string): (r: KeyOutcome)
    ensures r.defaultPrevented <==> ParseKey(key).Some?
    ensures r.exportRequested <==> ParseKey(key) == Some(Export)
    ensures ParseKey(key).None? ==> r.state == st
  {
    match ParseKey(key)
    case None => KeyOutcome(st, false, false)
    case Some(c) => KeyOutcome(Apply(st, c), true, c == Export)
  }

  /** The slider ranges of the settings that keys and the deformation
      read. */
  ghost predicate InRange(s: Settings)
  {
    && 0 <= s.rotationX <= 360 && 0 <= s.rotationY <= 360 && 0 <= s.rotationZ <= 360
    && -180.0 <= s.twist <= 180.0 && -1.0 <= s.taper <= 1.0 && 0.0 <= s.noise <= 1.0
  }

  /** Each rotation key changes its own axis by one step and nothing else;
      `r` restores the defaults; `enter` changes no setting. */
  lemma KeyDownEffect(st: AppState, key: string)
    ensures var s := st.settings;
            var r := KeyDown(st, key).state;
            match ParseKey(key)
            case None => r == st
            case Some(Export) => r == st
            case Some(ResetAll) => r == Reset(st)
            case Some(NextShape) => r == st.(settings := s.(shape := Cycle(Shapes, s.shape)))
            case Some(NextMaterial) => r == st.(settings := s.(materialType := Cycle(Materials, s.materialType)))
            case Some(Rotate(X, up)) => r == st.(settings := s.(rotationX := Step(s.rotationX, up)))
            case Some(Rotate(Y, up)) => r == st.(settings := s.(rotationY := Step(s.rotationY, up)))
            case Some(Rotate(Z, up)) => r == st.(settings := s.(rotationZ := Step(s.rotationZ, up)))
  {
  }

  /** Keys keep the settings within their slider ranges. */
  lemma KeyDownKeepsRange(st: AppState, key: string)
    requires InRange(st.settings)
    ensures InRange(KeyDown(st, key).state.settings)
  {
  }

  /** A sequence of keydown events. */
  function Press(st: AppState, keys: seq<string>): AppState
    decreases |keys|
  {
    if |keys| == 0 then st else Press(KeyDown(st, keys[0]).state, keys[1..])
  }

  /** A sequence of keys is its first key followed by the rest. */
  lemma PressFirst(st: AppState, key: string, rest: seq<string>)
    ensures Press(st, [key] + rest) == Press(KeyDown(st, key).state, rest)
  {
    assert ([key] + rest)[1..] == rest;
  }

  function Repeat(key: string, n: nat): (r: seq<string>)
    ensures |r| == n && forall i :: 0 <= i < n ==> r[i] == key
  {
    if n == 0 then [] else [key] + Repeat(key, n - 1)
  }

  /** One press of `c` advances the shape and changes nothing else. */
  lemma ShapeKey(st: AppState)
    ensures KeyDown(st, "c").state == st.(settings := st.settings.(shape := Cycle(Shapes, st.settings.shape)))
  {
    LowerOfLowerCase("c");
  }

  /** One press of `m` advances the material and changes nothing else. */
  lemma MaterialKey(st: AppState)
    ensures KeyDown(st, "m").state
         == st.(settings := st.settings.(materialType := Cycle(Materials, st.settings.materialType)))
  {
    LowerOfLowerCase("m");
  }

  /** Pressing `c` n times advances the shape n places and changes nothing
      else. */
  lemma {:induction false} PressShapeKey(st: AppState, n: nat)
    ensures Press(st, Repeat("c", n))
         == st.(settings := st.settings.(shape := CycleN(Shapes, n, st.settings.shape)))
    decreases n
  {
    if n > 0 {
      var st1 := st.(settings := st.settings.(shape := Cycle(Shapes, st.settings.shape)));
      assert Repeat("c", n) == ["c"] + Repeat("c", n - 1);
      PressFirst(st, "c", Repeat("c", n - 1));
      ShapeKey(st);
      PressShapeKey(st1, n - 1);
      CycleNFirst(Shapes, n - 1, st.settings.shape);
    }
  }

  /** Pressing `m` n times advances the material n places and changes
      nothing else. */
  lemma {:induction false} PressMaterialKey(st: AppState, n: nat)
    ensures Press(st, Repeat("m", n))
         == st.(settings := st.settings.(materialType := CycleN(Materials, n, st.settings.materialType)))
    decreases n
  {
    if n > 0 {
      var st1 := st.(settings := st.settings.(materialType := Cycle(Materials, st.settings.materialType)));
      assert Repeat("m", n) == ["m"] + Repeat("m", n - 1);
      PressFirst(st, "m", Repeat("m", n - 1));
      MaterialKey(st);
      PressMaterialKey(st1, n - 1);
      CycleNFirst(Materials, n - 1, st.settings.materialType);
    }
  }

  /** n + 1 presses are one press followed by n. */
  lemma {:induction false} CycleNFirst<T>(list: seq<T>, n: nat, x: T)
    requires |list| > 0
    ensures CycleN(list, n, Cycle(list, x)) == CycleN(list, n + 1, x)
  {
    if n > 0 {
      CycleNFirst(list, n - 1, x);
    }
  }

  /** `c` walks from tetrahedron back to cube and `m` from wireframe back
      to matte. */
  lemma CyclingKeysWrap()
    ensures Cycle(Shapes, Tetrahedron) == Cube
    ensures Cycle(Materials, Wireframe) == Matte
  {
    ListsAreComplete();
    IndexOfDistinct(Shapes, 10);
    IndexOfDistinct(Materials, 9);
  }

  /** Eleven presses of `c` bring the state back to where it was. */
  lemma ShapeKeyFullTurn(st: AppState)
    ensures Press(st, Repeat("c", |Shapes|)) == st
  {
    assert Distinct(Shapes) && st.settings.shape in Shapes by {
      ListsAreComplete();
    }
    PressShapeKey(st, |Shapes|);
    FullCycle(Shapes, st.settings.shape);
  }

  /** Ten presses of `m` bring the state back to where it was. */
  lemma MaterialKeyFullTurn(st: AppState)
    ensures Press(st, Repeat("m", |Materials|)) == st
  {
    assert Distinct(Materials) && st.settings.materialType in Materials by {
      ListsAreComplete();
    }
    PressMaterialKey(st, |Materials|);
    FullCycle(Materials, st.settings.materialType);
  }

  /** A key followed by `r` ends where `r` alone would: keys change only
      settings, and reset overwrites every setting. */
  lemma ResetAfterAnyKey(st: AppState, key: string)
    ensures KeyDown(KeyDown(st, key).state, "r").state == KeyDown(st, "r").state
  {
    LowerOfLowerCase("r");
  }

  /** The deformation sliders of a settings record. */
  function DeformParamsOf(s: Settings): StudioDeform.DeformParams
  {
    StudioDeform.DeformParams(s.twist, s.taper, s.noise)
  }

  /** After a reset the deformation pass leaves the base mesh as it is. */
  lemma ResetMeshIsUndeformed(st: AppState, base: seq<Vec3>, trig: Trig)
    requires ValidTrig(trig)
    ensures StudioDeform.DeformAll(base, DeformParamsOf(Reset(st).settings), trig) == base
  {
    assert DeformParamsOf(Reset(st).settings) == StudioDeform.Neutral;
    StudioDeform.NeutralIsIdentity(base, trig);
  }

  /** The defaults are within the slider ranges. */
  lemma DefaultInRange()
    ensures InRange(DefaultState)
  {
  }
}
