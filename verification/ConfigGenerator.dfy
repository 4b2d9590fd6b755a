/**
 The generated DeepStream configuration file and the source map that detections are resolved with.  A
 configuration file is an ordered list of named sections; values hold no '%', and there is no [DEFAULT]
 section.  The text of a camera id is a parameter.
 */
module ConfigGenerator {
  import opened Common
  import opened Configuration

  datatype Section = Section(name: string, options: map<string, string>)

  type Ini = seq<Section>

  predicate HasSection(ini: Ini, name: string) {
    exists i :: 0 <= i < |ini| && ini[i].name == name
  }

  ghost predicate DistinctNames(ini: Ini) {
    forall i, j :: 0 <= i < j < |ini| ==> ini[i].name != ini[j].name
  }

  // ---- Decimal numerals ------------------------------------------------------------------------

  function Digit(d: nat): char
    requires d < 10
  {
    ['0', '1', '2', '3', '4', '5', '6', '7', '8', '9'][d]
  }

  function Decimal(n: nat): (s: string)
    ensures |s| > 0
  {
    if n < 10 then [Digit(n)] else Decimal(n / 10) + [Digit(n % 10)]
  }

  lemma DigitInjective(a: nat, b: nat)
    requires a < 10 && b < 10 && Digit(a) == Digit(b)
    ensures a == b
  {
  }

  lemma {:induction false} DecimalInjective(m: nat, n: nat)
    requires Decimal(m) == Decimal(n)
    ensures m == n
    decreases m
  {
    var s := Decimal(m);
    assert s[|s| - 1] == Digit(m % 10) && s[|s| - 1] == Digit(n % 10);
    DigitInjective(m % 10, n % 10);
    OneDigitIff(m);
    OneDigitIff(n);
    if m >= 10 {
      assert Decimal(m / 10) == s[..|s| - 1] && Decimal(n / 10) == s[..|s| - 1];
      DecimalInjective(m / 10, n / 10);
    }
  }

  /** The text of an integer. */
  function Numeral(n: int): string {
    if n < 0 then "-" + Decimal(-n) else Decimal(n)
  }

  lemma {:induction false} DecimalStartsWithDigit(n: nat)
    ensures '0' <= Decimal(n)[0] <= '9'
  {
    if n >= 10 {
      DecimalStartsWithDigit(n / 10);
      assert Decimal(n)[0] == Decimal(n / 10)[0];
    }
  }

  lemma NumeralInjective(m: int, n: int)
    requires Numeral(m) == Numeral(n)
    ensures m == n
  {
    if m < 0 && n < 0 {
      assert Numeral(m)[1..] == Decimal(-m) && Numeral(n)[1..] == Decimal(-n);
      DecimalInjective(-m, -n);
    } else if m >= 0 && n >= 0 {
      DecimalInjective(m, n);
    } else {
      DecimalStartsWithDigit(if m < 0 then n else m);
    }
  }

  lemma OneDigitIff(n: nat)
    ensures |Decimal(n)| == 1 <==> n < 10
  {
    if n >= 10 {
      assert |Decimal(n)| == |Decimal(n / 10)| + 1;
    }
  }

  // ---- Generating ------------------------------------------------------------------------------

  const SOURCE_PREFIX := "source"
  const STREAMMUX := "streammux"
  const NOT_CARRIED: set<string> := {"enable", "type", "uri", "camera-id", "camera-key", "output-path"}

  predicate IsSource(name: string) {
    SOURCE_PREFIX <= name
  }

  function SourceName(order: int): string {
    SOURCE_PREFIX + Numeral(order)
  }

  /** Lexicographic order on text, as the sort uses it. */
  predicate TextLess(a: string, b: string) {
    if b == "" then false
    else if a == "" then true
    else a[0] < b[0] || (a[0] == b[0] && TextLess(a[1..], b[1..]))
  }

  datatype GeneratorError = NoSourceSection | DuplicateSection(name: string)

  /** The options every generated source section takes over from the template. */
  function Carried(options: map<string, string>): map<string, string> {
    map k | k in options && k !in NOT_CARRIED :: options[k]
  }

  /** The options that come from the camera itself. */
  function IdentityOption(c: Camera, key: string, idText: nat -> string): string {
    if key == "enable" then "1"
    else if key == "type" then "4"
    else if key == "uri" then c.streamUrl
    else if key == "camera-id" then idText(c.cameraId)
    else if key == "camera-key" then c.cameraKey
    else c.outputPath
  }

  function CameraOptions(c: Camera, carried: map<string, string>, idText: nat -> string): map<string, string> {
    (map key | key in NOT_CARRIED :: IdentityOption(c, key, idText)) + carried
  }

  function SectionFor(c: Camera, carried: map<string, string>, idText: nat -> string): Section {
    Section(SourceName(c.sourceOrder), CameraOptions(c, carried, idText))
  }

  /** How the section of a camera is made, with the template's options and the id texts fixed. */
  type Maker = Camera -> Section

  function MakerOf(carried: map<string, string>, idText: nat -> string): Maker {
    (c: Camera) => SectionFor(c, carried, idText)
  }

  /** What the names of the made sections have to be for the file to come out right. */
  ghost predicate SoundNames(make: Maker) {
    && (forall c :: IsSource(make(c).name) && make(c).name != STREAMMUX)
    && (forall c, d :: make(c).name == make(d).name ==> c.sourceOrder == d.sourceOrder)
  }

  lemma NamesSound(make: Maker)
    requires NamesByOrder(make)
    ensures SoundNames(make)
  {
    forall c
      ensures IsSource(make(c).name) && make(c).name != STREAMMUX
    {
      SourceNames(c.sourceOrder);
    }
    forall c, d | make(c).name == make(d).name
      ensures c.sourceOrder == d.sourceOrder
    {
      SourceNameInjective(c.sourceOrder, d.sourceOrder);
    }
  }

  ghost predicate NamesByOrder(make: Maker) {
    forall c :: make(c).name == SourceName(c.sourceOrder)
  }

  function CameraSections(cameras: seq<Camera>, make: Maker): (r: Ini)
    ensures |r| == |cameras| && forall i :: 0 <= i < |cameras| ==> r[i] == make(cameras[i])
  {
    if cameras == [] then [] else CameraSections(cameras[..|cameras| - 1], make) + [make(cameras[|cameras| - 1])]
  }

  lemma OneMoreSection(cameras: seq<Camera>, make: Maker, n: nat)
    requires n < |cameras|
    ensures CameraSections(cameras[..n + 1], make) == CameraSections(cameras[..n], make) + [make(cameras[n])]
  {
    assert cameras[..n + 1][..n] == cameras[..n];
  }

  /** Every section that is no source section, in order. */
  function OtherSections(ini: Ini): Ini {
    if ini == [] then []
    else OtherSections(ini[..|ini| - 1]) + (if IsSource(ini[|ini| - 1].name) then [] else [ini[|ini| - 1]])
  }

  function WithOption(ini: Ini, section: string, key: string, value: string): Ini {
    if ini == [] then []
    else
      WithOption(ini[..|ini| - 1], section, key, value)
        + [if ini[|ini| - 1].name == section then ini[|ini| - 1].(options := ini[|ini| - 1].options[key := value]) else ini[|ini| - 1]]
  }

  function WithMux(ini: Ini): Ini {
    if HasSection(ini, STREAMMUX) then ini else ini + [Section(STREAMMUX, map[])]
  }

  function SetBatchSize(ini: Ini, n: nat): Ini {
    WithOption(WithMux(ini), STREAMMUX, "batch-size", Decimal(n))
  }

  /** The first source section in name order is the one whose options are carried over. */
  ghost predicate IsFirstSource(ini: Ini, k: nat) {
    && k < |ini| && IsSource(ini[k].name)
    && forall i :: 0 <= i < |ini| && IsSource(ini[i].name) && i != k ==> !TextLess(ini[i].name, ini[k].name)
  }

  method FirstSource(ini: Ini) returns (k: Option<nat>)
    ensures k.None? ==> forall i :: 0 <= i < |ini| ==> !IsSource(ini[i].name)
    ensures k.Some? ==> IsFirstSource(ini, k.value)
  {
    k := None;
    for n := 0 to |ini|
      invariant k.None? ==> forall i :: 0 <= i < n ==> !IsSource(ini[i].name)
      invariant k.Some? ==> k.value < n && IsSource(ini[k.value].name)
      invariant k.Some? ==> forall i :: 0 <= i < n && IsSource(ini[i].name) && i != k.value ==> !TextLess(ini[i].name, ini[k.value].name)
    {
      if IsSource(ini[n].name) {
        if k.None? {
          k := Some(n);
        } else if TextLess(ini[n].name, ini[k.value].name) {
          forall i | 0 <= i < n && IsSource(ini[i].name)
            ensures !TextLess(ini[i].name, ini[n].name)
          {
            if TextLess(ini[i].name, ini[n].name) {
              TextLessTransitive(ini[i].name, ini[n].name, ini[k.value].name);
              TextLessIrreflexive(ini[k.value].name);
            }
          }
          k := Some(n);
        }
      }
    }
  }

  lemma {:induction false} TextLessTransitive(a: string, b: string, c: string)
    requires TextLess(a, b) && TextLess(b, c)
    ensures TextLess(a, c)
    decreases |b|
  {
    if a != "" && a[0] == b[0] && b[0] == c[0] {
      TextLessTransitive(a[1..], b[1..], c[1..]);
    }
  }

  lemma {:induction false} TextLessIrreflexive(a: string)
    ensures !TextLess(a, a)
  {
    if a != "" {
      TextLessIrreflexive(a[1..]);
    }
  }

  /** Reads the template, replaces its source sections by one per camera and sets the batch size; adding
      a section that exists fails. */
  method GenerateRuntimeConfig(template: Ini, cameras: seq<Camera>, idText: nat -> string) returns (r: Result<Ini, GeneratorError>, ghost first: nat)
    ensures r == Err(NoSourceSection) <==> forall i :: 0 <= i < |template| ==> !IsSource(template[i].name)
    ensures r.Ok? ==> IsFirstSource(template, first)
                      && r.value == Generated(template, cameras, MakerOf(Carried(template[first].options), idText))
    ensures r.Ok? ==> !SharedOrder(cameras)
    ensures r.Err? && r.error.DuplicateSection? ==> SharedOrder(cameras)
  {
    first := 0;
    var k := FirstSource(template);
    if k.None? {
      return Err(NoSourceSection), 0;
    }
    first := k.value;
    var rest := RemoveSources(template);
    OthersAreNoSources(template);
    MakerSound(template[k.value].options, idText);
    NamesSound(MakerOf(Carried(template[k.value].options), idText));
    var added := AddCameraSections(rest, cameras, MakerOf(Carried(template[k.value].options), idText));
    match added {
      case Err(e) => return Err(e), first;
      case Ok(ini) => return Ok(SetBatchSize(ini, |cameras|)), first;
    }
  }

  method AddCameraSections(base: Ini, cameras: seq<Camera>, make: Maker) returns (r: Result<Ini, GeneratorError>)
    requires SoundNames(make) && forall i :: 0 <= i < |base| ==> !IsSource(base[i].name)
    ensures r.Ok? ==> r.value == base + CameraSections(cameras, make) && NamesDiffer(cameras, |cameras|, make)
    ensures r.Err? ==> r.error.DuplicateSection? && SharedOrder(cameras)
  {
    var ini := base;
    var n := 0;
    while n < |cameras|
      invariant 0 <= n <= |cameras|
      invariant ini == base + CameraSections(cameras[..n], make)
      invariant NamesDiffer(cameras, n, make)
    {
      var section := make(cameras[n]);
      if HasSection(ini, section.name) {
        SectionTaken(base, cameras, make, n);
        return Err(DuplicateSection(section.name));
      }
      NameIsNew(base, cameras, make, n);
      OneMoreSection(cameras, make, n);
      ini := ini + [section];
      n := n + 1;
    }
    assert cameras[..n] == cameras;
    return Ok(ini);
  }

  ghost predicate SharedOrder(cameras: seq<Camera>) {
    exists i, j :: 0 <= i < j < |cameras| && cameras[i].sourceOrder == cameras[j].sourceOrder
  }

  /** The first n cameras have sections of different names. */
  ghost predicate NamesDiffer(cameras: seq<Camera>, n: nat, make: Maker)
    requires n <= |cameras|
  {
    forall i, j :: 0 <= i < j < n ==> make(cameras[i]).name != make(cameras[j]).name
  }

  lemma NameIsNew(base: Ini, cameras: seq<Camera>, make: Maker, n: nat)
    requires n < |cameras| && NamesDiffer(cameras, n, make)
    requires !HasSection(base + CameraSections(cameras[..n], make), make(cameras[n]).name)
    ensures NamesDiffer(cameras, n + 1, make)
  {
    var sections := CameraSections(cameras[..n], make);
    forall i: nat | i < n
      ensures make(cameras[i]).name != make(cameras[n]).name
    {
      assert (base + sections)[|base| + i] == sections[i] == make(cameras[..n][i]);
    }
  }

  /** A section name already taken is that of an earlier camera with the same order. */
  lemma SectionTaken(base: Ini, cameras: seq<Camera>, make: Maker, n: nat)
    requires SoundNames(make) && forall i :: 0 <= i < |base| ==> !IsSource(base[i].name)
    requires n < |cameras| && HasSection(base + CameraSections(cameras[..n], make), make(cameras[n]).name)
    ensures SharedOrder(cameras)
  {
    var sections := CameraSections(cameras[..n], make);
    var i :| 0 <= i < |base + sections| && (base + sections)[i].name == make(cameras[n]).name;
    assert i >= |base|;
    var m := i - |base|;
    assert (base + sections)[i] == sections[m] && sections[m] == make(cameras[..n][m]) && cameras[..n][m] == cameras[m];
  }

  lemma SourceNameInjective(m: int, n: int)
    requires SourceName(m) == SourceName(n)
    ensures m == n
  {
    SourceNames(m);
    SourceNames(n);
    NumeralInjective(m, n);
  }

  method RemoveSources(template: Ini) returns (rest: Ini)
    ensures rest == OtherSections(template)
  {
    rest := [];
    for n := 0 to |template|
      invariant rest == OtherSections(template[..n])
    {
      assert template[..n + 1][..n] == template[..n];
      if !IsSource(template[n].name) {
        rest := rest + [template[n]];
      }
    }
    assert template[..|template|] == template;
  }

  function Generated(template: Ini, cameras: seq<Camera>, make: Maker): Ini
  {
    SetBatchSize(OtherSections(template) + CameraSections(cameras, make), |cameras|)
  }

  // ---- What the file says ----------------------------------------------------------------------

  lemma {:induction false} OthersAreNoSources(ini: Ini)
    ensures forall i :: 0 <= i < |OtherSections(ini)| ==> !IsSource(OtherSections(ini)[i].name)
    ensures forall i :: 0 <= i < |OtherSections(ini)| ==> OtherSections(ini)[i] in ini
  {
    if ini != [] {
      OthersAreNoSources(ini[..|ini| - 1]);
      assert forall x :: x in ini[..|ini| - 1] ==> x in ini;
    }
  }

  lemma {:induction false} WithOptionAt(ini: Ini, section: string, key: string, value: string)
    ensures |WithOption(ini, section, key, value)| == |ini|
    ensures forall i :: 0 <= i < |ini| ==>
              WithOption(ini, section, key, value)[i]
                == if ini[i].name == section then ini[i].(options := ini[i].options[key := value]) else ini[i]
  {
    if ini != [] {
      WithOptionAt(ini[..|ini| - 1], section, key, value);
    }
  }

  ghost predicate OrdersDistinct(cameras: seq<Camera>) {
    forall i, j :: 0 <= i < j < |cameras| ==> cameras[i].sourceOrder != cameras[j].sourceOrder
  }

  lemma SourceNames(order: int)
    ensures IsSource(SourceName(order)) && SourceName(order) != STREAMMUX && SourceName(order)[6..] == Numeral(order)
  {
    assert SourceName(order)[1] == 'o' && STREAMMUX[1] == 't';
  }

  /** Position of camera `n`'s section in the generated file. */
  lemma CameraSectionAt(template: Ini, cameras: seq<Camera>, make: Maker, n: nat)
    requires n < |cameras| && make(cameras[n]).name != STREAMMUX
    ensures var g := Generated(template, cameras, make); var at := |OtherSections(template)| + n;
            at < |g| && g[at] == make(cameras[n])
  {
    var others, sections: Ini := OtherSections(template), CameraSections(cameras, make);
    SectionKept(others, sections, |cameras|, n);
    assert sections[n] == make(cameras[n]);
  }

  /** Adding the multiplexer and setting its batch size leaves every other section in its place. */
  lemma SectionKept(others: Ini, sections: Ini, cameras: nat, n: nat)
    requires n < |sections| && sections[n].name != STREAMMUX
    ensures var g := SetBatchSize(others + sections, cameras); |others| + n < |g| && g[|others| + n] == sections[n]
  {
    WithOptionAt(WithMux(others + sections), STREAMMUX, "batch-size", Decimal(cameras));
  }

  lemma NotSource()
    ensures !IsSource(STREAMMUX)
  {
    assert SOURCE_PREFIX[1] == 'o' && STREAMMUX[1] == 't';
  }

  function SourceCount(ini: Ini): nat {
    if ini == [] then 0 else SourceCount(ini[..|ini| - 1]) + if IsSource(ini[|ini| - 1].name) then 1 else 0
  }

  lemma {:induction false} CountAppend(a: Ini, b: Ini)
    ensures SourceCount(a + b) == SourceCount(a) + SourceCount(b)
    decreases |b|
  {
    if b == [] {
      assert a + b == a;
    } else {
      assert (a + b)[..|a + b| - 1] == a + b[..|b| - 1];
      CountAppend(a, b[..|b| - 1]);
    }
  }

  lemma {:induction false} CountSame(a: Ini, b: Ini)
    requires |a| == |b| && forall i :: 0 <= i < |a| ==> a[i].name == b[i].name
    ensures SourceCount(a) == SourceCount(b)
  {
    if a != [] {
      CountSame(a[..|a| - 1], b[..|b| - 1]);
    }
  }

  lemma {:induction false} CountNone(ini: Ini)
    requires forall i :: 0 <= i < |ini| ==> !IsSource(ini[i].name)
    ensures SourceCount(ini) == 0
  {
    if ini != [] {
      CountNone(ini[..|ini| - 1]);
    }
  }

  lemma {:induction false} CountAll(ini: Ini)
    requires forall i :: 0 <= i < |ini| ==> IsSource(ini[i].name)
    ensures SourceCount(ini) == |ini|
  {
    if ini != [] {
      CountAll(ini[..|ini| - 1]);
    }
  }

  lemma CountMux(ini: Ini)
    ensures SourceCount(WithMux(ini)) == SourceCount(ini)
  {
    if !HasSection(ini, STREAMMUX) {
      NotSource();
      CountAppend(ini, [Section(STREAMMUX, map[])]);
      CountNone([Section(STREAMMUX, map[])]);
    }
  }

  /** One source section per camera. */
  lemma OneSectionPerCamera(template: Ini, cameras: seq<Camera>, make: Maker)
    requires OrdersDistinct(cameras) && SoundNames(make)
    ensures SourceCount(Generated(template, cameras, make)) == |cameras|
  {
    var others, sections: Ini := OtherSections(template), CameraSections(cameras, make);
    var base := others + sections;
    OthersAreNoSources(template);
    CountNone(others);
    forall i | 0 <= i < |sections|
      ensures IsSource(sections[i].name)
    {
    }
    CountAll(sections);
    CountAppend(others, sections);
    CountMux(base);
    WithOptionAt(WithMux(base), STREAMMUX, "batch-size", Decimal(|cameras|));
    CountSame(WithMux(base), Generated(template, cameras, make));
  }

  /** The batch size written is the number of source sections. */
  lemma BatchSizeCountsSources(template: Ini, cameras: seq<Camera>, make: Maker)
    requires OrdersDistinct(cameras) && SoundNames(make)
    ensures var g := Generated(template, cameras, make);
            && HasSection(g, STREAMMUX)
            && forall i :: 0 <= i < |g| && g[i].name == STREAMMUX ==>
                 "batch-size" in g[i].options && g[i].options["batch-size"] == Decimal(SourceCount(g))
  {
    var base := OtherSections(template) + CameraSections(cameras, make);
    var g := Generated(template, cameras, make);
    OneSectionPerCamera(template, cameras, make);
    WithOptionAt(WithMux(base), STREAMMUX, "batch-size", Decimal(|cameras|));
    MuxPresent(base);
    var i :| 0 <= i < |WithMux(base)| && WithMux(base)[i].name == STREAMMUX;
    assert g[i].name == STREAMMUX;
  }

  /** No two sections of the file share a name, and the template's other sections are kept, the batch
      size aside. */
  lemma NoCollision(template: Ini, cameras: seq<Camera>, make: Maker)
    requires DistinctNames(template) && OrdersDistinct(cameras) && SoundNames(make)
    ensures var g := Generated(template, cameras, make); var others := OtherSections(template);
            && DistinctNames(g)
            && |others| <= |g|
            && forall i :: 0 <= i < |others| ==>
                 g[i] == if others[i].name == STREAMMUX then others[i].(options := others[i].options["batch-size" := Decimal(|cameras|)]) else others[i]
  {
    var base := OtherSections(template) + CameraSections(cameras, make);
    BaseDistinct(template, cameras, make);
    WithOptionAt(WithMux(base), STREAMMUX, "batch-size", Decimal(|cameras|));
  }

  lemma MuxPresent(base: Ini)
    ensures HasSection(WithMux(base), STREAMMUX)
  {
    if !HasSection(base, STREAMMUX) {
      assert (base + [Section(STREAMMUX, map[])])[|base|].name == STREAMMUX;
    }
  }

  lemma {:induction false} OthersDistinct(ini: Ini)
    requires DistinctNames(ini)
    ensures DistinctNames(OtherSections(ini))
  {
    if ini != [] {
      var front, last := ini[..|ini| - 1], ini[|ini| - 1];
      OthersDistinct(front);
      OthersAreNoSources(front);
      forall i | 0 <= i < |OtherSections(front)|
        ensures OtherSections(front)[i].name != last.name
      {
        assert OtherSections(front)[i] in front;
      }
    }
  }

  lemma BaseDistinct(template: Ini, cameras: seq<Camera>, make: Maker)
    requires DistinctNames(template) && OrdersDistinct(cameras) && SoundNames(make)
    ensures DistinctNames(OtherSections(template) + CameraSections(cameras, make))
  {
    var others: Ini, sections: Ini := OtherSections(template), CameraSections(cameras, make);
    var all := others + sections;
    OthersDistinct(template);
    OthersAreNoSources(template);
    forall i, j | 0 <= i < j < |all|
      ensures all[i].name != all[j].name
    {
      if j >= |others| {
        if i >= |others| {
          assert all[i] == make(cameras[i - |others|]) && all[j] == make(cameras[j - |others|]);
        }
      }
    }
  }

  // ---- The source map --------------------------------------------------------------------------

  datatype SourceGeneration = SourceGeneration(generation: nat, cameraOf: map<int, nat>) {
    /** An unknown source id is a normal outcome. */
    function Resolve(sourceId: int): Option<nat> {
      if sourceId in cameraOf then Some(cameraOf[sourceId]) else None
    }
  }

  /** Only enabled cameras are mapped; a later camera with the same order would win. */
  function MapOf(cameras: seq<Camera>): map<int, nat> {
    if cameras == [] then map[]
    else
      var c := cameras[|cameras| - 1];
      var before := MapOf(cameras[..|cameras| - 1]);
      if c.enabled then before[c.sourceOrder := c.cameraId] else before
  }

  class SourceGenerationTracker {
    var nextGeneration: nat
    var current: Option<SourceGeneration>

    constructor ()
      ensures nextGeneration == 1 && current == None
    {
      nextGeneration, current := 1, None;
    }

    /** Every installed generation has a number of its own, larger than all before it. */
    method Install(cameras: seq<Camera>) returns (g: SourceGeneration)
      modifies this
      ensures g == SourceGeneration(old(nextGeneration), MapOf(cameras))
      ensures current == Some(g) && nextGeneration == g.generation + 1
    {
      var mapping: map<int, nat> := map[];
      for n := 0 to |cameras|
        invariant mapping == MapOf(cameras[..n])
      {
        assert cameras[..n + 1][..n] == cameras[..n];
        if cameras[n].enabled {
          mapping := mapping[cameras[n].sourceOrder := cameras[n].cameraId];
        }
      }
      assert cameras[..|cameras|] == cameras;
      g := SourceGeneration(nextGeneration, mapping);
      nextGeneration := nextGeneration + 1;
      current := Some(g);
    }
  }

  lemma {:induction false} MapOfIff(cameras: seq<Camera>, order: int)
    requires OrdersDistinct(cameras)
    ensures order in MapOf(cameras) <==> exists i :: 0 <= i < |cameras| && cameras[i].enabled && cameras[i].sourceOrder == order
    ensures forall i :: 0 <= i < |cameras| && cameras[i].enabled ==>
              cameras[i].sourceOrder in MapOf(cameras) && MapOf(cameras)[cameras[i].sourceOrder] == cameras[i].cameraId
  {
    if cameras != [] {
      MapOfIff(cameras[..|cameras| - 1], order);
    }
  }

  /** Different sources stand for different cameras. */
  lemma MapInjective(cameras: seq<Camera>, a: int, b: int)
    requires OrdersDistinct(cameras) && Unique(cameras)
    requires a in MapOf(cameras) && b in MapOf(cameras) && MapOf(cameras)[a] == MapOf(cameras)[b]
    ensures a == b
  {
    MapOfIff(cameras, a);
    MapOfIff(cameras, b);
    var i :| 0 <= i < |cameras| && cameras[i].enabled && cameras[i].sourceOrder == a;
    var j :| 0 <= j < |cameras| && cameras[j].enabled && cameras[j].sourceOrder == b;
  }

  /** The file and the source map agree on a source: the section is there exactly when the id resolves,
      and then it carries the own id, key, uri and mount of the camera it resolves to. */
  ghost predicate AgreesOn(g: Ini, cameras: seq<Camera>, idText: nat -> string, order: int) {
    && (HasSection(g, SourceName(order)) <==> order in MapOf(cameras))
    && (order in MapOf(cameras) ==>
          exists i, n :: 0 <= i < |g| && 0 <= n < |cameras| && CarriesCamera(g[i], cameras[n], idText)
                         && cameras[n].sourceOrder == order && cameras[n].cameraId == MapOf(cameras)[order])
  }

  predicate CarriesCamera(section: Section, c: Camera, idText: nat -> string) {
    section.name == SourceName(c.sourceOrder) && IdentityKept(section.options, c, idText)
  }

  lemma NamesAt(template: Ini, cameras: seq<Camera>, make: Maker, i: nat)
    requires OrdersDistinct(cameras) && NamesByOrder(make) && i < |Generated(template, cameras, make)|
    ensures var name := Generated(template, cameras, make)[i].name;
            IsSource(name) ==> exists n :: 0 <= n < |cameras| && name == SourceName(cameras[n].sourceOrder)
  {
    var others, sections: Ini := OtherSections(template), CameraSections(cameras, make);
    var base := others + sections;
    WithOptionAt(WithMux(base), STREAMMUX, "batch-size", Decimal(|cameras|));
    OthersAreNoSources(template);
    NotSource();
    if |others| <= i < |base| {
      assert sections[i - |others|].name == SourceName(cameras[i - |others|].sourceOrder);
    }
  }

  lemma SectionIff(template: Ini, cameras: seq<Camera>, make: Maker, order: int)
    requires OrdersDistinct(cameras) && NamesByOrder(make)
    ensures HasSection(Generated(template, cameras, make), SourceName(order)) <==>
              exists n :: 0 <= n < |cameras| && cameras[n].sourceOrder == order
  {
    NamesSound(make);
    var g := Generated(template, cameras, make);
    if i: nat :| i < |g| && g[i].name == SourceName(order) {
      SourceNames(order);
      NamesAt(template, cameras, make, i);
      var n :| 0 <= n < |cameras| && g[i].name == SourceName(cameras[n].sourceOrder);
      SourceNameInjective(cameras[n].sourceOrder, order);
    }
    if n: nat :| n < |cameras| && cameras[n].sourceOrder == order {
      CameraSectionAt(template, cameras, make, n);
    }
  }

  /** Every section carries its own camera's id, key, uri and mount. */
  ghost predicate KeepsIdentity(make: Maker, idText: nat -> string) {
    forall c :: IdentityKept(make(c).options, c, idText)
  }

  predicate IdentityKept(o: map<string, string>, c: Camera, idText: nat -> string) {
    && "camera-id" in o && o["camera-id"] == idText(c.cameraId)
    && "camera-key" in o && o["camera-key"] == c.cameraKey
    && "output-path" in o && o["output-path"] == c.outputPath
    && "uri" in o && o["uri"] == c.streamUrl
  }

  /** Nothing carried over from the template overwrites the camera's identity. */
  lemma MakerSound(options: map<string, string>, idText: nat -> string)
    ensures NamesByOrder(MakerOf(Carried(options), idText)) && KeepsIdentity(MakerOf(Carried(options), idText), idText)
  {
    forall c: Camera
      ensures IdentityKept(SectionFor(c, Carried(options), idText).options, c, idText)
    {
      IdentityOptions(c, Carried(options), idText);
    }
  }

  lemma IdentityOptions(c: Camera, carried: map<string, string>, idText: nat -> string)
    requires carried.Keys !! NOT_CARRIED
    ensures IdentityKept(CameraOptions(c, carried, idText), c, idText)
  {
    assert "camera-id" in NOT_CARRIED && "camera-key" in NOT_CARRIED && "output-path" in NOT_CARRIED && "uri" in NOT_CARRIED;
  }

  lemma EnabledAgrees(template: Ini, cameras: seq<Camera>, make: Maker, idText: nat -> string, n: nat)
    requires OrdersDistinct(cameras) && NamesByOrder(make) && KeepsIdentity(make, idText) && n < |cameras| && cameras[n].enabled
    ensures AgreesOn(Generated(template, cameras, make), cameras, idText, cameras[n].sourceOrder)
  {
    NamesSound(make);
    SectionIff(template, cameras, make, cameras[n].sourceOrder);
    MapOfIff(cameras, cameras[n].sourceOrder);
    CameraSectionAt(template, cameras, make, n);
    assert CarriesCamera(make(cameras[n]), cameras[n], idText);
  }

  /** The file has a section for every camera but the map only for enabled ones: they agree on every
      source exactly when all cameras are enabled. */
  lemma AgreesIffAllEnabled(template: Ini, cameras: seq<Camera>, make: Maker, idText: nat -> string)
    requires OrdersDistinct(cameras) && NamesByOrder(make) && KeepsIdentity(make, idText)
    ensures (forall order: int :: AgreesOn(Generated(template, cameras, make), cameras, idText, order))
       <==> forall n :: 0 <= n < |cameras| ==> cameras[n].enabled
  {
    if forall n :: 0 <= n < |cameras| ==> cameras[n].enabled {
      forall order: int
        ensures AgreesOn(Generated(template, cameras, make), cameras, idText, order)
      {
        AllEnabledAgree(template, cameras, make, idText, order);
      }
    }
    if n: nat :| n < |cameras| && !cameras[n].enabled {
      DisabledDisagrees(template, cameras, make, idText, n);
    }
  }

  lemma AllEnabledAgree(template: Ini, cameras: seq<Camera>, make: Maker, idText: nat -> string, order: int)
    requires OrdersDistinct(cameras) && NamesByOrder(make) && KeepsIdentity(make, idText)
    requires forall n :: 0 <= n < |cameras| ==> cameras[n].enabled
    ensures AgreesOn(Generated(template, cameras, make), cameras, idText, order)
  {
    if n: nat :| n < |cameras| && cameras[n].sourceOrder == order {
      EnabledAgrees(template, cameras, make, idText, n);
    } else {
      SectionIff(template, cameras, make, order);
      MapOfIff(cameras, order);
    }
  }

  lemma DisabledDisagrees(template: Ini, cameras: seq<Camera>, make: Maker, idText: nat -> string, n: nat)
    requires OrdersDistinct(cameras) && NamesByOrder(make) && n < |cameras| && !cameras[n].enabled
    ensures !AgreesOn(Generated(template, cameras, make), cameras, idText, cameras[n].sourceOrder)
  {
    SectionIff(template, cameras, make, cameras[n].sourceOrder);
    MapOfIff(cameras, cameras[n].sourceOrder);
  }

  /** One camera, accepted though it is disabled: the file has its section, the map does not know it. */
  lemma DisabledInstance() returns (c: DeviceConfiguration, parse: UrlParser)
    ensures Problem(c, 1, 4, parse).None? && |c.cameras| == 1 && !c.cameras[0].enabled
    ensures forall template: Ini, make: Maker, idText: nat -> string :: NamesByOrder(make) ==>
              !AgreesOn(Generated(template, c.cameras, make), c.cameras, idText, c.cameras[0].sourceOrder)
  {
    parse := _ => Url("rtsp", true);
    var camera := Camera(5, "gate-1", "Gate", "rtsp://gate", false, 0, OUTPUT_PATH_PREFIX + "gate-1");
    c := DeviceConfiguration(SUPPORTED_SCHEMA_VERSION, "v1", 1, 2, 0, [camera]);
    assert StrictKey("gate-1");
    AcceptedIff(c, 1, 4, parse);
    forall template: Ini, make: Maker, idText: nat -> string | NamesByOrder(make)
      ensures !AgreesOn(Generated(template, c.cameras, make), c.cameras, idText, c.cameras[0].sourceOrder)
    {
      DisabledDisagrees(template, c.cameras, make, idText, 0);
    }
  }

  lemma AcceptedAreSound(c: DeviceConfiguration, expected: nat, maxCameras: nat, parse: UrlParser)
    requires Problem(c, expected, maxCameras, parse).None?
    ensures OrdersDistinct(c.cameras) && Unique(c.cameras)
  {
    AcceptedIff(c, expected, maxCameras, parse);
  }
}
