/**
 Merging compose files, as values.  An unset field is "", nil or an empty list;
 `rest` stands for the service fields the merge takes from the base unseen.
 */
module ComposeMerge {
  import opened Basics

  type Labels = map<string, string>

  datatype Service = Service(
    image: string,
    containerName: string,
    command: Option<string>,
    environment: Option<string>,
    ports: seq<string>,
    volumes: seq<string>,
    restart: string,
    healthCheck: Option<string>,
    deploy: Option<string>,
    labels: Option<Labels>,
    rest: string)

  datatype File = File(
    version: string,
    services: map<string, Service>,
    networks: map<string, string>,
    volumes: map<string, string>,
    secrets: map<string, string>,
    configs: map<string, string>)

  function LabelsOf(l: Option<Labels>): Labels {
    if l.Some? then l.value else map[]
  }

  function MergeLabels(base: Option<Labels>, over: Option<Labels>): Option<Labels> {
    if LabelsOf(over) == map[] then base else Some(LabelsOf(base) + LabelsOf(over))
  }

  function MergeService(base: Service, over: Service): Service {
    Service(
      if over.image != "" then over.image else base.image,
      if over.containerName != "" then over.containerName else base.containerName,
      if over.command.Some? then over.command else base.command,
      if over.environment.Some? then over.environment else base.environment,
      if over.ports != [] then over.ports else base.ports,
      if over.volumes != [] then over.volumes else base.volumes,
      if over.restart != "" then over.restart else base.restart,
      if over.healthCheck.Some? then over.healthCheck else base.healthCheck,
      if over.deploy.Some? then over.deploy else base.deploy,
      MergeLabels(base.labels, over.labels),
      base.rest)
  }

  function MergeServices(base: map<string, Service>, over: map<string, Service>): map<string, Service> {
    map n | n in base.Keys + over.Keys ::
      if n !in over then base[n] else if n in base then MergeService(base[n], over[n]) else over[n]
  }

  function Merge(base: File, over: File): File {
    File(base.version, MergeServices(base.services, over.services),
         base.networks + over.networks, base.volumes + over.volumes, map[], map[])
  }

  lemma MergeServiceAssociative(a: Service, b: Service, c: Service)
    ensures MergeService(MergeService(a, b), c) == MergeService(a, MergeService(b, c))
  {
    assert LabelsOf(MergeLabels(a.labels, b.labels)) == LabelsOf(a.labels) + LabelsOf(b.labels);
    if LabelsOf(c.labels) != map[] {
      var k :| k in LabelsOf(c.labels);
      assert k in LabelsOf(b.labels) + LabelsOf(c.labels);
      assert LabelsOf(MergeLabels(b.labels, c.labels)) == LabelsOf(b.labels) + LabelsOf(c.labels);
      assert LabelsOf(a.labels) + LabelsOf(b.labels) + LabelsOf(c.labels)
          == LabelsOf(a.labels) + (LabelsOf(b.labels) + LabelsOf(c.labels));
    }
  }

  lemma MergeServicesAssociative(a: map<string, Service>, b: map<string, Service>, c: map<string, Service>)
    ensures MergeServices(MergeServices(a, b), c) == MergeServices(a, MergeServices(b, c))
  {
    var l, r := MergeServices(MergeServices(a, b), c), MergeServices(a, MergeServices(b, c));
    forall n | n in l
      ensures l[n] == r[n]
    {
      if n in a && n in b && n in c {
        MergeServiceAssociative(a[n], b[n], c[n]);
      }
    }
  }

  /** How a chain of overrides is bracketed does not matter. */
  lemma MergeAssociative(a: File, b: File, c: File)
    ensures Merge(Merge(a, b), c) == Merge(a, Merge(b, c))
  {
    MergeServicesAssociative(a.services, b.services, c.services);
    UnionAssociative(a.networks, b.networks, c.networks);
    UnionAssociative(a.volumes, b.volumes, c.volumes);
  }

  lemma UnionAssociative(a: map<string, string>, b: map<string, string>, c: map<string, string>)
    ensures a + b + c == a + (b + c)
  {
  }

  /** A file merged with itself loses its secrets and configs, and nothing else. */
  lemma MergeWithItself(f: File)
    ensures Merge(f, f) == f.(secrets := map[], configs := map[])
  {
    forall n | n in f.services
      ensures MergeService(f.services[n], f.services[n]) == f.services[n]
    {
      var l := LabelsOf(f.services[n].labels);
      assert l + l == l;
    }
    assert MergeServices(f.services, f.services) == f.services;
    assert f.networks + f.networks == f.networks && f.volumes + f.volumes == f.volumes;
  }

  // ------------------------------------------------------------------------
  // Last writer wins
  // ------------------------------------------------------------------------

  datatype Field =
    | Image | ContainerName | Command | Environment | Ports | Mounts | Restart | HealthCheck | Deploy
    | Label(key: string)

  datatype Value = Text(text: string) | Items(items: seq<string>)

  function Texted(s: string): Option<Value> {
    if s != "" then Some(Text(s)) else None
  }

  function Lifted(o: Option<string>): Option<Value> {
    if o.Some? then Some(Text(o.value)) else None
  }

  function Listed(xs: seq<string>): Option<Value> {
    if xs != [] then Some(Items(xs)) else None
  }

  /** What a service says about a field, if anything. */
  function ServiceSetting(s: Service, field: Field): Option<Value> {
    match field
    case Image => Texted(s.image)
    case ContainerName => Texted(s.containerName)
    case Command => Lifted(s.command)
    case Environment => Lifted(s.environment)
    case Ports => Listed(s.ports)
    case Mounts => Listed(s.volumes)
    case Restart => Texted(s.restart)
    case HealthCheck => Lifted(s.healthCheck)
    case Deploy => Lifted(s.deploy)
    case Label(k) => if k in LabelsOf(s.labels) then Some(Text(LabelsOf(s.labels)[k])) else None
  }

  function Setting(f: File, name: string, field: Field): Option<Value> {
    if name in f.services then ServiceSetting(f.services[name], field) else None
  }

  lemma ServiceOverrideWins(a: Service, b: Service, field: Field)
    ensures ServiceSetting(MergeService(a, b), field) ==
            if ServiceSetting(b, field).Some? then ServiceSetting(b, field) else ServiceSetting(a, field)
  {
    if field.Label? {
      assert LabelsOf(MergeLabels(a.labels, b.labels)) == LabelsOf(a.labels) + LabelsOf(b.labels);
    }
  }

  lemma OverrideWins(a: File, b: File, name: string, field: Field)
    ensures Setting(Merge(a, b), name, field) ==
            if Setting(b, name, field).Some? then Setting(b, name, field) else Setting(a, name, field)
  {
    if name in a.services && name in b.services {
      ServiceOverrideWins(a.services[name], b.services[name], field);
    }
  }

  function MergeAll(fs: seq<File>): File
    requires fs != []
  {
    if |fs| == 1 then fs[0] else Merge(MergeAll(fs[..|fs| - 1]), fs[|fs| - 1])
  }

  function LastSet(values: seq<Option<Value>>): Option<Value> {
    if values == [] then None
    else if values[|values| - 1].Some? then values[|values| - 1]
    else LastSet(values[..|values| - 1])
  }

  function Settings(fs: seq<File>, name: string, field: Field): seq<Option<Value>> {
    seq(|fs|, i requires 0 <= i < |fs| => Setting(fs[i], name, field))
  }

  lemma LastSetSnoc(values: seq<Option<Value>>, v: Option<Value>)
    ensures LastSet(values + [v]) == if v.Some? then v else LastSet(values)
  {
    assert (values + [v])[..|values|] == values;
  }

  lemma SettingsSnoc(fs: seq<File>, f: File, name: string, field: Field)
    ensures Settings(fs + [f], name, field) == Settings(fs, name, field) + [Setting(f, name, field)]
  {
  }

  /** In a merge of any number of files every merged field, each label included,
      has the value of the last file that sets it. */
  lemma {:induction false} LastWriterWins(fs: seq<File>, name: string, field: Field)
    requires fs != []
    ensures Setting(MergeAll(fs), name, field) == LastSet(Settings(fs, name, field))
  {
    var n := |fs| - 1;
    var init, last := fs[..n], Setting(fs[n], name, field);
    assert fs == init + [fs[n]];
    SettingsSnoc(init, fs[n], name, field);
    LastSetSnoc(Settings(init, name, field), last);
    if n > 0 {
      LastWriterWins(init, name, field);
      OverrideWins(MergeAll(init), fs[n], name, field);
    }
  }

  // ------------------------------------------------------------------------
  // First namer keeps, and the parts outside the services
  // ------------------------------------------------------------------------

  /** The fields of the service that the merge does not know, if the file names it. */
  function RestOf(f: File, name: string): Option<string> {
    if name in f.services then Some(f.services[name].rest) else None
  }

  /** The same for the first of the files that names it. */
  function FirstRest(fs: seq<File>, name: string): Option<string> {
    if fs == [] then None
    else
      var first := FirstRest(fs[..|fs| - 1], name);
      if first.Some? then first else RestOf(fs[|fs| - 1], name)
  }

  lemma BaseKeepsRest(a: File, b: File, name: string)
    ensures RestOf(Merge(a, b), name) == if RestOf(a, name).Some? then RestOf(a, name) else RestOf(b, name)
  {
  }

  /** In a merge of any number of files a service is there exactly if some file names
      it, and its fields that the merge does not know are those of the first that does. */
  lemma {:induction false} FirstNamerKeepsRest(fs: seq<File>, name: string)
    requires fs != []
    ensures RestOf(MergeAll(fs), name) == FirstRest(fs, name)
  {
    var n := |fs| - 1;
    if n > 0 {
      FirstNamerKeepsRest(fs[..n], name);
      BaseKeepsRest(MergeAll(fs[..n]), fs[n], name);
    } else {
      assert fs[..0] == [];
    }
  }

  function Lookup(m: map<string, string>, key: string): Option<string> {
    if key in m then Some(m[key]) else None
  }

  /** What the last of the files that has the network says about it. */
  function LastNetwork(fs: seq<File>, key: string): Option<string> {
    if fs == [] then None
    else
      var last := Lookup(fs[|fs| - 1].networks, key);
      if last.Some? then last else LastNetwork(fs[..|fs| - 1], key)
  }

  function LastVolume(fs: seq<File>, key: string): Option<string> {
    if fs == [] then None
    else
      var last := Lookup(fs[|fs| - 1].volumes, key);
      if last.Some? then last else LastVolume(fs[..|fs| - 1], key)
  }

  /** The version is that of the first file, each network and volume that of the last
      file that has it, and as soon as two files are merged no secret or config is
      left. */
  lemma {:induction false} OtherParts(fs: seq<File>, key: string)
    requires fs != []
    ensures MergeAll(fs).version == fs[0].version
    ensures Lookup(MergeAll(fs).networks, key) == LastNetwork(fs, key)
    ensures Lookup(MergeAll(fs).volumes, key) == LastVolume(fs, key)
    ensures |fs| > 1 ==> MergeAll(fs).secrets == map[] && MergeAll(fs).configs == map[]
  {
    var n := |fs| - 1;
    if n > 0 {
      OtherParts(fs[..n], key);
    } else {
      assert fs[..0] == [];
    }
  }

  /** A service ends without a label map exactly when the base has none and the
      override sets no label. */
  lemma NoLabelsIff(base: Service, over: Service)
    ensures MergeService(base, over).labels.None? <==> base.labels.None? && LabelsOf(over.labels) == map[]
  {
  }
}

/**
 The same merge on the heap, where a service's labels are a map object that the
 result shares with the base.
 */
module ComposeHeap {
  import opened Basics
  import opened ComposeMerge

  class LabelMap {
    var entries: Labels

    constructor (entries: Labels)
      ensures this.entries == entries
    {
      this.entries := entries;
    }
  }

  /** `fields.labels` is not used; the labels are those of the object, nil if null. */
  datatype HeapService = HeapService(fields: Service, labels: LabelMap?)

  function Labelled(s: HeapService): Option<Labels>
    reads s.labels
  {
    if s.labels == null then None else Some(s.labels.entries)
  }

  function View(s: HeapService): Service
    reads s.labels
  {
    s.fields.(labels := Labelled(s))
  }

  /** The fields other than the labels. */
  function Overridden(base: Service, over: Service): Service {
    MergeService(base, over).(labels := base.labels)
  }

  /** The only object the merge of two services writes is the base's label map. */
  method MergeInto(base: HeapService, over: HeapService) returns (r: HeapService)
    modifies base.labels
    ensures Absorbed(base, over, r)
    ensures View(r) == MergeService(old(View(base)), old(View(over)))
  {
    r := Absorb(base, over);
  }

  method Absorb(base: HeapService, over: HeapService) returns (r: HeapService)
    modifies base.labels
    ensures Absorbed(base, over, r)
  {
    var fields := Overridden(base.fields, over.fields);
    var labels := base.labels;
    if over.labels != null && over.labels.entries != map[] {
      if labels == null {
        labels := new LabelMap(map[]);
      }
      CopyLabels(labels, over.labels);
    }
    r := HeapService(fields, labels);
  }

  /** The merge of two services shares the base's label map or has a new one. */
  twostate predicate Absorbed(base: HeapService, over: HeapService, new r: HeapService)
    reads r.labels
  {
    && r.fields == Overridden(base.fields, over.fields)
    && Labelled(r) == MergeLabels(old(Labelled(base)), old(Labelled(over)))
    && (base.labels != null ==> r.labels == base.labels)
    && (base.labels == null ==> r.labels == null || fresh(r.labels))
  }

  method CopyLabels(into: LabelMap, from: LabelMap)
    modifies into
    ensures into.entries == old(into.entries) + old(from.entries)
  {
    ghost var before, source := into.entries, from.entries;
    var todo := from.entries.Keys;
    while todo != {}
      invariant todo <= source.Keys
      invariant from.entries == if into == from then into.entries else source
      invariant into.entries == before + (map k | k in source.Keys - todo :: source[k])
      invariant into == from ==> before == source && into.entries == source
      decreases todo
    {
      var k :| k in todo;
      into.entries := into.entries[k := from.entries[k]];
      todo := todo - {k};
    }
    assert source == map k | k in source.Keys - todo :: source[k];
  }

  /** Adding `l` changes nothing in `b` that `s` would not set again. */
  predicate Covered(b: Labels, l: Labels, s: Labels) {
    forall k :: k in l ==> k in s || (k in b && b[k] == l[k])
  }

  lemma CoveredIff(b: Labels, l: Labels, s: Labels)
    ensures b + l + s == b + s <==> Covered(b, l, s)
  {
    if b + l + s == b + s {
      forall k | k in l && k !in s
        ensures k in b && b[k] == l[k]
      {
        assert k in b + l + s && (b + l + s)[k] == l[k];
        assert k in b + s;
      }
    }
    if Covered(b, l, s) {
      assert forall k :: k in b + l + s <==> k in b + s;
      assert forall k :: k in b + s ==> (b + l + s)[k] == (b + s)[k];
    }
  }

  /** Two merges into one base share its label map, if it has one.  The second
      result is that of a merge into the original base exactly when the base has no
      labels, or each label of the first override is set again by the second or
      was in the base already; the first result stays what it was exactly when the
      base has no labels or each label of the second override was in it already.
      An override may itself share the base's map, and then sets nothing again. */
  method MergeTwice(base: HeapService, first: HeapService, second: HeapService)
    returns (r1: HeapService, r2: HeapService)
    modifies base.labels
    ensures var b := LabelsOf(old(Labelled(base)));
            var f, s := LabelsOf(old(Labelled(first))), LabelsOf(old(Labelled(second)));
            && (View(r2) == MergeService(old(View(base)), old(View(second))) <==>
                base.labels == null || Covered(b, f, if second.labels == base.labels then map[] else s))
            && (View(r1) == MergeService(old(View(base)), old(View(first))) <==>
                base.labels == null || second.labels == base.labels || Covered(b + f, s, map[]))
    ensures base.labels != null ==> View(r1).labels == View(r2).labels
  {
    ghost var lb, lf, ls := Labelled(base), Labelled(first), Labelled(second);
    r1 := MergeInto(base, first);
    ghost var again := Labelled(second);
    r2 := MergeInto(base, second);
    SameViewIff(base.fields, second.fields, lb, ls, Labelled(r2));
    SameViewIff(base.fields, first.fields, lb, lf, Labelled(r1));
    if base.labels != null {
      SharedLabels(lb, lf, ls, again, second.labels == base.labels);
    }
  }

  lemma SameViewIff(base: Service, over: Service, lb: Option<Labels>, lo: Option<Labels>, l: Option<Labels>)
    ensures Overridden(base, over).(labels := l) == MergeService(base.(labels := lb), over.(labels := lo))
            <==> l == MergeLabels(lb, lo)
  {
  }

  /** The labels after both merges, `again` being those of the second override as
      the second merge finds them. */
  lemma SharedLabels(lb: Option<Labels>, lf: Option<Labels>, ls: Option<Labels>, again: Option<Labels>, aliased: bool)
    requires lb.Some? && again == if aliased then MergeLabels(lb, lf) else ls
    requires aliased ==> ls == lb
    ensures var b, f, s := LabelsOf(lb), LabelsOf(lf), LabelsOf(ls);
            var l := MergeLabels(MergeLabels(lb, lf), again);
            && (l == MergeLabels(lb, ls) <==> Covered(b, f, if aliased then map[] else s))
            && (l == MergeLabels(lb, lf) <==> aliased || Covered(b + f, s, map[]))
  {
    var b, f, s := LabelsOf(lb), LabelsOf(lf), LabelsOf(ls);
    MergedLabels(lb, lf);
    MergedLabels(lb, ls);
    MergedLabels(MergeLabels(lb, lf), again);
    if aliased {
      CoveredIff(b, f, map[]);
      assert b + f + map[] == b + f && b + map[] == b && b + b == b;
      assert b + f + (b + f) == b + f;
    } else {
      CoveredIff(b, f, s);
      CoveredIff(b + f, s, map[]);
      assert b + f + s + map[] == b + f + s && b + f + map[] == b + f;
    }
  }

  lemma MergedLabels(l: Option<Labels>, o: Option<Labels>)
    requires l.Some?
    ensures MergeLabels(l, o) == Some(l.value + LabelsOf(o))
  {
    assert l.value + map[] == l.value;
  }

  // ------------------------------------------------------------------------
  // Whole files, label maps shared in any way
  // ------------------------------------------------------------------------

  type Services = map<string, HeapService>

  function LabelObjects(services: Services): set<LabelMap> {
    set n | n in services && services[n].labels != null :: services[n].labels
  }

  /** The entries of every label map in play. */
  type Shelf = map<LabelMap, Labels>

  function ShelfOf(base: Services, over: Services): Shelf
    reads LabelObjects(base), LabelObjects(over)
  {
    map o | o in LabelObjects(base) + LabelObjects(over) :: o.entries
  }

  /** All label maps of the two files are on the shelf. */
  ghost predicate Complete(shelf: Shelf, base: Services, over: Services) {
    && (forall n :: n in base && base[n].labels != null ==> base[n].labels in shelf)
    && (forall n :: n in over && over[n].labels != null ==> over[n].labels in shelf)
  }

  function On(shelf: Shelf, l: LabelMap?): Option<Labels> {
    if l == null || l !in shelf then None else Some(shelf[l])
  }

  /** Merging service `n` writes a label map of the base. */
  predicate Writes(base: Services, over: Services, n: string) {
    n in base && n in over && base[n].labels != null
  }

  function AbsorbOne(shelf: Shelf, base: Services, over: Services, n: string): Shelf {
    if Writes(base, over, n) && base[n].labels in shelf
    then shelf[base[n].labels := shelf[base[n].labels] + LabelsOf(On(shelf, over[n].labels))]
    else shelf
  }

  /** The entries after the loop has met the names of `order`. */
  function AbsorbAll(shelf: Shelf, base: Services, over: Services, order: seq<string>): Shelf {
    if order == [] then shelf
    else AbsorbOne(AbsorbAll(shelf, base, over, order[..|order| - 1]), base, over, order[|order| - 1])
  }

  /** `order` names every service of the override once. */
  ghost predicate InOrder(over: Services, order: seq<string>) {
    && (forall n :: n in order <==> n in over)
    && (forall i, j :: 0 <= i < j < |order| ==> order[i] != order[j])
  }

  /** The names met before `n`. */
  function Before(order: seq<string>, n: string): seq<string> {
    if n !in order then order else Before(order[..|order| - 1], n)
  }

  /** The labels of service `n` in the result. */
  function Final(shelf: Shelf, base: Services, over: Services, order: seq<string>, n: string): Option<Labels>
    requires n in base || n in over
  {
    if n !in base then On(AbsorbAll(shelf, base, over, order), over[n].labels)
    else if n in over && base[n].labels == null
    then MergeLabels(None, On(AbsorbAll(shelf, base, over, Before(order, n)), over[n].labels))
    else On(AbsorbAll(shelf, base, over, order), base[n].labels)
  }

  /** The labels of service `n` in the value merge. */
  function Wanted(shelf: Shelf, base: Services, over: Services, n: string): Option<Labels>
    requires n in base || n in over
  {
    if n !in over then On(shelf, base[n].labels)
    else if n !in base then On(shelf, over[n].labels)
    else MergeLabels(On(shelf, base[n].labels), On(shelf, over[n].labels))
  }

  ghost predicate AsWanted(shelf: Shelf, base: Services, over: Services, order: seq<string>) {
    forall n :: n in base || n in over ==> Final(shelf, base, over, order, n) == Wanted(shelf, base, over, n)
  }

  /** What the override sets in service `n`. */
  function Set(shelf: Shelf, over: Services, n: string): Labels {
    if n in over then LabelsOf(On(shelf, over[n].labels)) else map[]
  }

  /** The merge of `m` leaves the map it shares with service `n` of the base as
      the merge of `n` would. */
  ghost predicate Agreeing(shelf: Shelf, base: Services, over: Services, m: string, n: string) {
    Writes(base, over, m) && n in base && m != n && base[m].labels == base[n].labels ==>
      var b := LabelsOf(On(shelf, base[n].labels));
      b + Set(shelf, over, m) == b + Set(shelf, over, n)
  }

  /** The merge of `m` adds nothing to the map it shares with service `n` of the
      override that would make a difference to the merge of `n`. */
  ghost predicate Unnoticed(shelf: Shelf, base: Services, over: Services, m: string, n: string) {
    Writes(base, over, m) && n in over && m != n && base[m].labels == over[n].labels ==>
      var b := if n in base then LabelsOf(On(shelf, base[n].labels)) else map[];
      b + (Set(shelf, over, n) + Set(shelf, over, m)) == b + Set(shelf, over, n)
  }

  ghost predicate Harmless(shelf: Shelf, base: Services, over: Services) {
    forall m, n :: Writes(base, over, m) ==> Agreeing(shelf, base, over, m, n) && Unnoticed(shelf, base, over, m, n)
  }

  lemma AddTwice(p: Labels, a: Labels, c: Labels)
    ensures p + a + a == p + a
    ensures p + a + (a + c) == p + (a + c)
    ensures p + map[] == p && map[] + p == p
  {
  }

  /** In a harmless pair of files a map of the base holds what it held, or what the
      merge of any of its services makes of it. */
  ghost predicate HalfMerged(shelf: Shelf, base: Services, over: Services, order: seq<string>) {
    var now := AbsorbAll(shelf, base, over, order);
    && now.Keys == shelf.Keys
    && (forall o :: o in shelf && (forall m :: m in order && Writes(base, over, m) ==> base[m].labels != o) ==>
          now[o] == shelf[o])
    && (forall m :: m in order && Writes(base, over, m) ==>
          base[m].labels in shelf && now[base[m].labels] == shelf[base[m].labels] + Set(shelf, over, m))
  }

  lemma {:induction false} HarmlessHalfway(shelf: Shelf, base: Services, over: Services, order: seq<string>)
    requires Complete(shelf, base, over) && Harmless(shelf, base, over)
    requires forall i, j :: 0 <= i < j < |order| ==> order[i] != order[j]
    ensures HalfMerged(shelf, base, over, order)
  {
    if order != [] {
      var init, n := order[..|order| - 1], order[|order| - 1];
      assert order == init + [n];
      assert forall i :: 0 <= i < |init| ==> init[i] == order[i];
      assert n !in init;
      HarmlessHalfway(shelf, base, over, init);
      if Writes(base, over, n) {
        HarmlessStep(shelf, base, over, init, n);
        forall m | m in order && Writes(base, over, m) && base[m].labels == base[n].labels && m != n
          ensures shelf[base[m].labels] + Set(shelf, over, m) == shelf[base[n].labels] + Set(shelf, over, n)
        {
          assert Agreeing(shelf, base, over, m, n);
        }
      }
    }
  }

  lemma HarmlessStep(shelf: Shelf, base: Services, over: Services, init: seq<string>, n: string)
    requires Complete(shelf, base, over) && Harmless(shelf, base, over) && HalfMerged(shelf, base, over, init)
    requires n !in init && Writes(base, over, n)
    ensures var now := AbsorbAll(shelf, base, over, init);
            now[base[n].labels] + LabelsOf(On(now, over[n].labels)) == shelf[base[n].labels] + Set(shelf, over, n)
  {
    var now := AbsorbAll(shelf, base, over, init);
    var p, a := shelf[base[n].labels], Set(shelf, over, n);
    assert now[base[n].labels] == p || now[base[n].labels] == p + a by {
      if m :| m in init && Writes(base, over, m) && base[m].labels == base[n].labels {
        assert Agreeing(shelf, base, over, m, n);
      }
    }
    if over[n].labels != null && exists m :: m in init && Writes(base, over, m) && base[m].labels == over[n].labels {
      var m :| m in init && Writes(base, over, m) && base[m].labels == over[n].labels;
      assert Unnoticed(shelf, base, over, m, n);
      AddTwice(p, a, Set(shelf, over, m));
    } else {
      AddTwice(p, a, map[]);
    }
  }

  lemma {:induction false} BeforeDistinct(order: seq<string>, n: string)
    requires forall i, j :: 0 <= i < j < |order| ==> order[i] != order[j]
    ensures var b := Before(order, n); n !in b && forall i, j :: 0 <= i < j < |b| ==> b[i] != b[j]
  {
    if n in order {
      BeforeDistinct(order[..|order| - 1], n);
    }
  }

  /** However the loop goes, a harmless pair of files merges as values do. */
  lemma HarmlessAsWanted(shelf: Shelf, base: Services, over: Services, order: seq<string>)
    requires Complete(shelf, base, over) && Harmless(shelf, base, over) && InOrder(over, order)
    ensures AsWanted(shelf, base, over, order)
  {
    HarmlessHalfway(shelf, base, over, order);
    forall n | n in base || n in over
      ensures Final(shelf, base, over, order, n) == Wanted(shelf, base, over, n)
    {
      if n !in over {
        BaseOnlyKept(shelf, base, over, order, n);
      } else if n !in base {
        OverrideKept(shelf, base, over, order, n);
      } else if base[n].labels == null {
        BeforeDistinct(order, n);
        HarmlessHalfway(shelf, base, over, Before(order, n));
        OverrideKept(shelf, base, over, Before(order, n), n);
      } else {
        assert Writes(base, over, n);
        MergedLabels(On(shelf, base[n].labels), On(shelf, over[n].labels));
      }
    }
  }

  lemma BaseOnlyKept(shelf: Shelf, base: Services, over: Services, order: seq<string>, n: string)
    requires Complete(shelf, base, over) && Harmless(shelf, base, over) && HalfMerged(shelf, base, over, order)
    requires n in base && n !in over
    ensures On(AbsorbAll(shelf, base, over, order), base[n].labels) == On(shelf, base[n].labels)
  {
    if base[n].labels != null {
      if m :| m in order && Writes(base, over, m) && base[m].labels == base[n].labels {
        assert Agreeing(shelf, base, over, m, n);
        AddTwice(shelf[base[n].labels], map[], map[]);
      }
    }
  }

  lemma OverrideKept(shelf: Shelf, base: Services, over: Services, order: seq<string>, n: string)
    requires Complete(shelf, base, over) && Harmless(shelf, base, over) && HalfMerged(shelf, base, over, order)
    requires n in over && (n in base ==> base[n].labels == null)
    ensures On(AbsorbAll(shelf, base, over, order), over[n].labels) == On(shelf, over[n].labels)
  {
    if over[n].labels != null {
      if m :| m in order && Writes(base, over, m) && base[m].labels == over[n].labels {
        assert Unnoticed(shelf, base, over, m, n);
        AddTwice(Set(shelf, over, n) + Set(shelf, over, m), map[], map[]);
        AddTwice(Set(shelf, over, n), map[], map[]);
      }
    }
  }

  lemma {:induction false} SomeOrder(names: set<string>) returns (order: seq<string>)
    ensures forall n :: n in order <==> n in names
    ensures forall i, j :: 0 <= i < j < |order| ==> order[i] != order[j]
  {
    order := [];
    if names != {} {
      var n :| n in names;
      var rest := SomeOrder(names - {n});
      order := rest + [n];
    }
  }

  lemma OrderEndingIn(over: Services, n: string) returns (init: seq<string>)
    requires n in over
    ensures n !in init && InOrder(over, init + [n])
  {
    init := SomeOrder(over.Keys - {n});
  }

  lemma LeakSeen(x: Labels, p: Labels, o: Labels, c: Labels)
    requires x + (o + c) == p + o
    ensures p + (o + c) == p + o
  {
    forall k | k in o + c
      ensures k in p + o && (p + o)[k] == (o + c)[k]
    {
      assert k in x + (o + c) && (x + (o + c))[k] == (o + c)[k];
    }
  }

  /** The merge of `n` last finds in a shared map what the merge of `m` left there. */
  lemma WantedUnnoticed(shelf: Shelf, base: Services, over: Services, m: string, n: string)
    requires Complete(shelf, base, over) && Writes(base, over, m) && n in over && m != n
    requires base[m].labels == over[n].labels && Agreeing(shelf, base, over, m, n)
    requires forall order :: InOrder(over, order) ==> AsWanted(shelf, base, over, order)
    ensures Unnoticed(shelf, base, over, m, n)
  {
    var o, c := Set(shelf, over, n), Set(shelf, over, m);
    if n in base && base[n].labels == base[m].labels {
      AddTwice(o, o, c);
      AddTwice(map[], o, c);
    } else {
      var init := OrderEndingIn(over, n);
      AbsorbAllSnoc(shelf, base, over, init, n);
      BeforeSnoc(init, n, n);
      assert AsWanted(shelf, base, over, init + [n]);
      LastUnnoticed(shelf, base, over, m, n, init);
    }
  }

  lemma LastUnnoticed(shelf: Shelf, base: Services, over: Services, m: string, n: string, init: seq<string>)
    requires Complete(shelf, base, over) && Writes(base, over, m) && n in over && m != n
    requires base[m].labels == over[n].labels && !(n in base && base[n].labels == base[m].labels)
    requires Before(init + [n], n) == init
    requires AbsorbAll(shelf, base, over, init + [n]) == AbsorbOne(AbsorbAll(shelf, base, over, init), base, over, n)
    requires Final(shelf, base, over, init + [n], m) == Wanted(shelf, base, over, m)
    requires Final(shelf, base, over, init + [n], n) == Wanted(shelf, base, over, n)
    ensures Unnoticed(shelf, base, over, m, n)
  {
    var was := AbsorbAll(shelf, base, over, init);
    var o, c := Set(shelf, over, n), Set(shelf, over, m);
    assert On(was, over[n].labels) == Some(o + c) by {
      MergedLabels(On(shelf, base[m].labels), On(shelf, over[m].labels));
    }
    if n !in base {
      AddTwice(o, map[], map[]);
    } else if base[n].labels == null {
      SeenFromNothing(o, c);
    } else {
      var p := On(shelf, base[n].labels);
      MergedLabels(p, On(shelf, over[n].labels));
      LeakSeen(LabelsOf(On(was, base[n].labels)), p.value, o, c);
    }
  }

  lemma SeenFromNothing(o: Labels, c: Labels)
    requires MergeLabels(None, Some(o + c)) == MergeLabels(None, Some(o))
    ensures map[] + (o + c) == map[] + o
  {
    AddTwice(o + c, map[], map[]);
    AddTwice(o, map[], map[]);
  }

  lemma WantedAgreeing(shelf: Shelf, base: Services, over: Services, m: string, n: string)
    requires Complete(shelf, base, over) && Writes(base, over, m)
    requires forall order :: InOrder(over, order) ==> AsWanted(shelf, base, over, order)
    ensures Agreeing(shelf, base, over, m, n)
  {
    if n in base && m != n && base[m].labels == base[n].labels {
      var init := OrderEndingIn(over, m);
      assert AsWanted(shelf, base, over, init + [m]);
      assert Final(shelf, base, over, init + [m], m) == Wanted(shelf, base, over, m);
      assert Final(shelf, base, over, init + [m], n) == Wanted(shelf, base, over, n);
      MergedLabels(On(shelf, base[m].labels), On(shelf, over[m].labels));
      if n in over {
        MergedLabels(On(shelf, base[n].labels), On(shelf, over[n].labels));
      } else {
        AddTwice(shelf[base[n].labels], map[], map[]);
      }
    }
  }

  /** Every order of the loop gives the value merge exactly for the harmless pairs of
      files. */
  lemma WantedIffHarmless(shelf: Shelf, base: Services, over: Services)
    requires Complete(shelf, base, over)
    ensures (forall order :: InOrder(over, order) ==> AsWanted(shelf, base, over, order))
            <==> Harmless(shelf, base, over)
  {
    if Harmless(shelf, base, over) {
      forall order | InOrder(over, order)
        ensures AsWanted(shelf, base, over, order)
      {
        HarmlessAsWanted(shelf, base, over, order);
      }
    }
    if forall order :: InOrder(over, order) ==> AsWanted(shelf, base, over, order) {
      forall m, n | Writes(base, over, m)
        ensures Agreeing(shelf, base, over, m, n) && Unnoticed(shelf, base, over, m, n)
      {
        WantedAgreeing(shelf, base, over, m, n);
        if n in over && m != n && base[m].labels == over[n].labels {
          WantedUnnoticed(shelf, base, over, m, n);
        }
      }
    }
  }

  // ------------------------------------------------------------------------
  // The loop over the override's services
  // ------------------------------------------------------------------------

  lemma AbsorbAllSnoc(shelf: Shelf, base: Services, over: Services, order: seq<string>, n: string)
    ensures AbsorbAll(shelf, base, over, order + [n]) == AbsorbOne(AbsorbAll(shelf, base, over, order), base, over, n)
  {
    assert (order + [n])[..|order|] == order;
  }

  lemma BeforeSnoc(order: seq<string>, x: string, n: string)
    requires x !in order
    ensures x == n ==> Before(order + [x], n) == order
    ensures x != n && n in order ==> Before(order + [x], n) == Before(order, n)
  {
    assert (order + [x])[..|order|] == order;
  }

  /** The fields of service `n` of the result, and which label map it has. */
  predicate Placed(base: Services, over: Services, n: string, r: HeapService)
    requires n in base || n in over
  {
    if n !in base then r == over[n]
    else if n !in over then r == base[n]
    else
      && r.fields == Overridden(base[n].fields, over[n].fields)
      && (base[n].labels != null ==> r.labels == base[n].labels)
  }

  /** The services merged so far: for one without labels in the base, the labels it
      was given. */
  ghost predicate Given(shelf: Shelf, base: Services, over: Services, order: seq<string>, n: string, r: HeapService)
    reads r.labels
  {
    n in base && n in over && base[n].labels == null && n in order ==>
      && (r.labels == null || r.labels !in shelf)
      && Labelled(r) == MergeLabels(None, On(AbsorbAll(shelf, base, over, Before(order, n)), over[n].labels))
  }

  /** One turn of the loop, for a service of both files. */
  method AbsorbNamed(base: Services, over: Services, name: string) returns (merged: HeapService)
    requires name in base && name in over
    modifies base[name].labels
    ensures Placed(base, over, name, merged)
    ensures ShelfOf(base, over) == AbsorbOne(old(ShelfOf(base, over)), base, over, name)
    ensures base[name].labels == null ==> merged.labels == null || fresh(merged.labels)
    ensures base[name].labels == null ==>
              Labelled(merged) == MergeLabels(None, On(old(ShelfOf(base, over)), over[name].labels))
  {
    ghost var shelf := ShelfOf(base, over);
    assert On(shelf, over[name].labels) == Labelled(over[name]);
    merged := Absorb(base[name], over[name]);
    if base[name].labels != null {
      MergedLabels(Some(shelf[base[name].labels]), On(shelf, over[name].labels));
    }
    forall o | o in LabelObjects(base) + LabelObjects(over)
      ensures o.entries == AbsorbOne(shelf, base, over, name)[o]
    {
      if o != base[name].labels {
        assert o.entries == shelf[o];
      }
    }
  }

  /** Each service is where it belongs: merged if its name has been met. */
  ghost predicate PlacedSoFar(base: Services, over: Services, order: seq<string>, result: Services) {
    && (forall n :: n in order ==> n in over)
    && (forall n :: n in result <==> n in base || n in order)
    && (forall n :: n in result ==> if n in order then Placed(base, over, n, result[n]) else result[n] == base[n])
  }

  ghost predicate GivenSoFar(shelf: Shelf, base: Services, over: Services, order: seq<string>, result: Services)
    reads LabelObjects(result)
  {
    forall n :: n in result ==> Given(shelf, base, over, order, n, result[n])
  }

  /** One turn of the loop. */
  method Turn(base: Services, over: Services, soFar: Services, name: string,
              ghost shelf: Shelf, ghost order: seq<string>)
    returns (result: Services)
    requires name in over && name !in order
    requires shelf.Keys == LabelObjects(base) + LabelObjects(over)
    requires PlacedSoFar(base, over, order, soFar) && GivenSoFar(shelf, base, over, order, soFar)
    requires ShelfOf(base, over) == AbsorbAll(shelf, base, over, order)
    modifies LabelObjects(base)
    ensures PlacedSoFar(base, over, order + [name], result) && GivenSoFar(shelf, base, over, order + [name], result)
    ensures ShelfOf(base, over) == AbsorbAll(shelf, base, over, order + [name])
  {
    AbsorbAllSnoc(shelf, base, over, order, name);
    if name in soFar {
      var merged := AbsorbNamed(base, over, name);
      forall n | n in soFar
        ensures Given(shelf, base, over, order, n, soFar[n])
      {
        assert old(Given(shelf, base, over, order, n, soFar[n]));
      }
      result := soFar[name := merged];
    } else {
      result := soFar[name := over[name]];
    }
    GivenSnoc(shelf, base, over, order, name, soFar, result);
    PlacedSnoc(base, over, order, name, soFar, result);
  }

  lemma PlacedSnoc(base: Services, over: Services, order: seq<string>, name: string, soFar: Services, result: Services)
    requires PlacedSoFar(base, over, order, soFar) && name in over && name !in order
    requires name in result && result == soFar[name := result[name]] && Placed(base, over, name, result[name])
    ensures PlacedSoFar(base, over, order + [name], result)
  {
  }

  /** The copy of the base's services and the loop over the override's, in any
      order.  Label maps may be shared in any way; the outcome is that of the writes
      in that order. */
  method OverrideServices(base: Services, over: Services) returns (result: Services, ghost order: seq<string>)
    modifies LabelObjects(base)
    ensures InOrder(over, order) && PlacedSoFar(base, over, order, result)
    ensures ShelfOf(base, over) == AbsorbAll(old(ShelfOf(base, over)), base, over, order)
    ensures GivenSoFar(old(ShelfOf(base, over)), base, over, order, result)
  {
    ghost var shelf := ShelfOf(base, over);
    result, order := base, [];
    var todo := over.Keys;
    while todo != {}
      invariant todo <= over.Keys
      invariant forall n :: n in order <==> n in over && n !in todo
      invariant forall i, j :: 0 <= i < j < |order| ==> order[i] != order[j]
      invariant PlacedSoFar(base, over, order, result) && GivenSoFar(shelf, base, over, order, result)
      invariant ShelfOf(base, over) == AbsorbAll(shelf, base, over, order)
      decreases todo
    {
      var name :| name in todo;
      result := Turn(base, over, result, name, shelf, order);
      order := order + [name];
      todo := todo - {name};
    }
  }

  lemma GivenSnoc(shelf: Shelf, base: Services, over: Services, order: seq<string>, name: string, before: Services,
                  result: Services)
    requires GivenSoFar(shelf, base, over, order, before) && name !in order
    requires name in result && result == before[name := result[name]]
    requires name in base && name in over && base[name].labels == null ==>
               && (result[name].labels == null || result[name].labels !in shelf)
               && Labelled(result[name]) ==
                  MergeLabels(None, On(AbsorbAll(shelf, base, over, order), over[name].labels))
    ensures GivenSoFar(shelf, base, over, order + [name], result)
  {
    forall n | n in result
      ensures Given(shelf, base, over, order + [name], n, result[n])
    {
      BeforeSnoc(order, name, n);
      if n != name {
        assert result[n] == before[n] && Given(shelf, base, over, order, n, before[n]);
      }
    }
  }

  /** No label map belongs to two services of the base, or to services of
      different names in the two files.  A service of the base and its namesake in
      the override may share one, as when a file is merged with itself. */
  ghost predicate Separate(base: Services, over: Services) {
    && (forall m, n :: m in base && n in base && m != n && base[m].labels != null ==> base[m].labels != base[n].labels)
    && (forall m, n :: m in base && n in over && m != n && base[m].labels != null ==> base[m].labels != over[n].labels)
  }

  lemma SeparateIsHarmless(shelf: Shelf, base: Services, over: Services)
    requires Separate(base, over)
    ensures Harmless(shelf, base, over)
  {
  }

  /** The services of a merged file, label maps shared in any way: the labels of
      each are those that the writes leave in the order of the loop. */
  method MergeSharedMaps(base: Services, over: Services) returns (result: Services, ghost order: seq<string>)
    modifies LabelObjects(base)
    ensures InOrder(over, order)
    ensures forall n :: n in result <==> n in base || n in over
    ensures forall n :: n in result ==>
              Placed(base, over, n, result[n])
              && Labelled(result[n]) == Final(old(ShelfOf(base, over)), base, over, order, n)
    ensures ShelfOf(base, over) == AbsorbAll(old(ShelfOf(base, over)), base, over, order)
  {
    ghost var shelf := ShelfOf(base, over);
    result, order := OverrideServices(base, over);
    FinalReached(shelf, base, over, order, result);
  }

  /** If the files are harmless, the labels are those of the value merge, in the
      result and in the base's own maps.  If they are separate, the override ends as
      it was, and so do the services of the base that it does not name. */
  method MergeServiceMaps(base: Services, over: Services) returns (result: Services, ghost order: seq<string>)
    modifies LabelObjects(base)
    ensures InOrder(over, order)
    ensures forall n :: n in result <==> n in base || n in over
    ensures forall n :: n in result ==> Placed(base, over, n, result[n])
    ensures Harmless(old(ShelfOf(base, over)), base, over) ==>
              && (forall n :: n in result ==> Labelled(result[n]) == Wanted(old(ShelfOf(base, over)), base, over, n))
              && (forall n :: n in base && n in over && base[n].labels != null ==>
                    Labelled(base[n]) == MergeLabels(old(Labelled(base[n])), old(Labelled(over[n]))))
    ensures Separate(base, over) ==>
              && Harmless(old(ShelfOf(base, over)), base, over)
              && (forall n :: n in over ==> Labelled(over[n]) == old(Labelled(over[n])))
              && (forall n :: n in base && n !in over ==> Labelled(base[n]) == old(Labelled(base[n])))
  {
    ghost var shelf := ShelfOf(base, over);
    ShelfShows(shelf, base, over);
    result, order := MergeSharedMaps(base, over);
    ghost var now := ShelfOf(base, over);
    ShelfShows(now, base, over);
    SeparateOutcome(shelf, base, over, order);
    if Harmless(shelf, base, over) {
      HarmlessAsWanted(shelf, base, over, order);
      assert forall n :: Writes(base, over, n) ==>
          On(now, base[n].labels) == Final(shelf, base, over, order, n) == Wanted(shelf, base, over, n);
    }
  }

  lemma ShelfShows(shelf: Shelf, base: Services, over: Services)
    requires shelf == ShelfOf(base, over)
    ensures Complete(shelf, base, over)
    ensures forall n :: n in base ==> Labelled(base[n]) == On(shelf, base[n].labels)
    ensures forall n :: n in over ==> Labelled(over[n]) == On(shelf, over[n].labels)
  {
  }

  lemma SeparateOutcome(shelf: Shelf, base: Services, over: Services, order: seq<string>)
    requires Complete(shelf, base, over) && InOrder(over, order)
    ensures var now := AbsorbAll(shelf, base, over, order);
            Separate(base, over) ==>
              && Harmless(shelf, base, over)
              && (forall n :: n in over ==> On(now, over[n].labels) == On(shelf, over[n].labels))
              && (forall n :: n in base && n !in over ==> On(now, base[n].labels) == On(shelf, base[n].labels))
  {
    if Separate(base, over) {
      SeparateIsHarmless(shelf, base, over);
      HarmlessHalfway(shelf, base, over, order);
      SeparateKept(shelf, base, over, order);
    }
  }

  lemma FinalReached(shelf: Shelf, base: Services, over: Services, order: seq<string>, result: Services)
    requires InOrder(over, order) && PlacedSoFar(base, over, order, result)
    requires GivenSoFar(shelf, base, over, order, result)
    requires ShelfOf(base, over) == AbsorbAll(shelf, base, over, order)
    ensures forall n :: n in result ==>
              (n in base || n in over) && Labelled(result[n]) == Final(shelf, base, over, order, n)
  {
    forall n | n in result
      ensures (n in base || n in over) && Labelled(result[n]) == Final(shelf, base, over, order, n)
    {
      assert Given(shelf, base, over, order, n, result[n]);
    }
  }

  lemma SeparateKept(shelf: Shelf, base: Services, over: Services, order: seq<string>)
    requires Complete(shelf, base, over) && Separate(base, over) && HalfMerged(shelf, base, over, order)
    ensures var now := AbsorbAll(shelf, base, over, order);
            && (forall n :: n in over ==> On(now, over[n].labels) == On(shelf, over[n].labels))
            && (forall n :: n in base && n !in over ==> On(now, base[n].labels) == On(shelf, base[n].labels))
  {
    var now := AbsorbAll(shelf, base, over, order);
    forall n | n in over && over[n].labels != null
      ensures now[over[n].labels] == shelf[over[n].labels]
    {
      if m :| m in order && Writes(base, over, m) && base[m].labels == over[n].labels {
        AddTwice(map[], shelf[over[n].labels], map[]);
      }
    }
  }

  datatype HeapFile = HeapFile(
    version: string,
    services: Services,
    networks: map<string, string>,
    volumes: map<string, string>,
    secrets: map<string, string>,
    configs: map<string, string>)

  /** The whole merge: every part of the result is that of the value merge, the
      labels if the files are harmless. */
  method MergeComposeFiles(base: HeapFile, over: HeapFile) returns (r: HeapFile, ghost order: seq<string>)
    modifies LabelObjects(base.services)
    ensures InOrder(over.services, order)
    ensures r.version == base.version && r.secrets == map[] && r.configs == map[]
    ensures r.networks == base.networks + over.networks && r.volumes == base.volumes + over.volumes
    ensures forall n :: n in r.services <==> n in base.services || n in over.services
    ensures forall n :: n in r.services ==> Placed(base.services, over.services, n, r.services[n])
    ensures Harmless(old(ShelfOf(base.services, over.services)), base.services, over.services) ==>
              Shows(r.services, MergeServices(old(ViewAll(base.services)), old(ViewAll(over.services))))
    ensures Harmless(old(ShelfOf(base.services, over.services)), base.services, over.services) ==>
              forall n :: n in base.services && n in over.services && base.services[n].labels != null ==>
                Labelled(base.services[n]) ==
                MergeLabels(old(Labelled(base.services[n])), old(Labelled(over.services[n])))
    ensures Separate(base.services, over.services) ==>
              && Harmless(old(ShelfOf(base.services, over.services)), base.services, over.services)
              && (forall n :: n in over.services ==> View(over.services[n]) == old(View(over.services[n])))
              && (forall n :: n in base.services && n !in over.services ==>
                    View(base.services[n]) == old(View(base.services[n])))
  {
    ghost var shelf := ShelfOf(base.services, over.services);
    ghost var values := MergeServices(ViewAll(base.services), ViewAll(over.services));
    ValuesOf(shelf, base.services, over.services);
    var services;
    services, order := MergeServiceMaps(base.services, over.services);
    if Harmless(shelf, base.services, over.services) {
      ShowsWanted(shelf, base.services, over.services, services, values);
    }
    r := HeapFile(base.version, services, base.networks + over.networks, base.volumes + over.volumes, map[], map[]);
  }

  /** The services are those of `values`. */
  ghost predicate Shows(services: Services, values: map<string, Service>)
    reads LabelObjects(services)
  {
    services.Keys == values.Keys && forall n :: n in services ==> View(services[n]) == values[n]
  }

  ghost predicate Tabulates(values: map<string, Service>, shelf: Shelf, base: Services, over: Services) {
    && values.Keys == base.Keys + over.Keys
    && forall n :: n in values ==> values[n] == FieldsOf(base, over, n).(labels := Wanted(shelf, base, over, n))
  }

  lemma ValuesOf(shelf: Shelf, base: Services, over: Services)
    requires shelf == ShelfOf(base, over)
    ensures Tabulates(MergeServices(ViewAll(base), ViewAll(over)), shelf, base, over)
  {
    var values := MergeServices(ViewAll(base), ViewAll(over));
    assert values.Keys == base.Keys + over.Keys;
    forall n | n in values
      ensures values[n] == FieldsOf(base, over, n).(labels := Wanted(shelf, base, over, n))
    {
      ValueOf(shelf, base, over, n);
    }
  }

  lemma ShowsWanted(shelf: Shelf, base: Services, over: Services, services: Services, values: map<string, Service>)
    requires Tabulates(values, shelf, base, over)
    requires forall n :: n in services <==> n in base || n in over
    requires forall n :: n in services ==>
               Placed(base, over, n, services[n]) && Labelled(services[n]) == Wanted(shelf, base, over, n)
    ensures Shows(services, values)
  {
    forall n | n in services
      ensures View(services[n]) == values[n]
    {
      assert services[n].fields == FieldsOf(base, over, n);
    }
  }

  function ViewAll(services: Services): map<string, Service>
    reads LabelObjects(services)
  {
    map n | n in services :: View(services[n])
  }

  function FieldsOf(base: Services, over: Services, n: string): Service
    requires n in base || n in over
  {
    if n !in base then over[n].fields
    else if n !in over then base[n].fields
    else Overridden(base[n].fields, over[n].fields)
  }

  lemma ValueOf(shelf: Shelf, base: Services, over: Services, n: string)
    requires (n in base || n in over) && shelf == ShelfOf(base, over)
    ensures MergeServices(ViewAll(base), ViewAll(over))[n]
            == FieldsOf(base, over, n).(labels := Wanted(shelf, base, over, n))
  {
    assert n in base ==> On(shelf, base[n].labels) == Labelled(base[n]);
    assert n in over ==> On(shelf, over[n].labels) == Labelled(over[n]);
    if n in base && n in over {
      SameViewIff(base[n].fields, over[n].fields, Labelled(base[n]), Labelled(over[n]), Wanted(shelf, base, over, n));
    }
  }
}
