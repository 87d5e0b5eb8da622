/** The definition DomainAction of internal/action/domain.go builds up in place: disks with their linked lists of
 *  backing stores, and the queues of the scsi controllers. */
module DomainAction {
  import opened Common
  import opened Protocol
  import opened Preservation
  import opened Guarantees
  import TargetDev

  /** Where a disk or a backing store gets its data. */
  datatype Source = Unset | FileSource(file: Path) | BlockSource(dev: Path) | VolumeSource(pool: string, volume: string)

  /** A volume's description as the host reports it. */
  datatype Desc = Desc(kind: Kind, format: string, path: Path, backing: Option<Path>)

  type Descs = map<Path, Desc>

  /** The host as a domain action sees it: its name, its pools, and the description of each volume. */
  datatype Libvirt = Libvirt(name: string, pools: set<string>, volumes: Descs)

  datatype Fault = CallFault | NoPool | NoVolume | UnsupportedSource

  /** One level of a chain of backing stores. */
  datatype Layer = Layer(format: string, source: Source)

  /** setDomainDiskSource. */
  method SetSource(kind: Kind, path: Path) returns (source: Option<Source>)
    ensures kind == File ==> source == Some(FileSource(path))
    ensures kind == Block ==> source == Some(BlockSource(path))
    ensures kind == OtherKind ==> source == None
  {
    match kind
    case File => source := Some(FileSource(path));
    case Block => source := Some(BlockSource(path));
    case OtherKind => source := None;
  }

  /** The source presents what is described: a file as a file, and a block device as a device. */
  predicate Presents(source: Source, desc: Desc) {
    && (desc.kind == File ==> source == FileSource(desc.path))
    && (desc.kind == Block ==> source == BlockSource(desc.path))
    && desc.kind != OtherKind
  }

  // ---------- chains on the host ----------

  /** Going down to a backing volume lowers the rank. */
  ghost predicate Descending(volumes: Descs, rank: Path -> nat) {
    forall p, q :: p in volumes && volumes[p].backing == Some(q) && q in volumes ==> rank(q) < rank(p)
  }

  /** The chain from `next` downwards, unfolded; None if it runs into a missing volume or an unsupported one. */
  ghost function Chain(volumes: Descs, rank: Path -> nat, next: Option<Path>): Option<seq<Layer>>
    requires Descending(volumes, rank)
    decreases if next.Some? && next.value in volumes then rank(next.value) + 1 else 0
  {
    if next.None? then Some([])
    else if next.value !in volumes then None
    else
      var d := volumes[next.value];
      match d.kind
      case File => Prepend([Layer(d.format, FileSource(d.path))], Chain(volumes, rank, d.backing))
      case Block => Prepend([Layer(d.format, BlockSource(d.path))], Chain(volumes, rank, d.backing))
      case OtherKind => None
  }

  /** The volumes on the chain from `next` downwards, as far as they are there. */
  ghost function Stops(volumes: Descs, rank: Path -> nat, next: Option<Path>): (ps: seq<Path>)
    requires Descending(volumes, rank)
    ensures forall p :: p in ps ==> p in volumes
    ensures ps != [] ==> next == Some(ps[0])
    ensures forall i :: 0 <= i < |ps| - 1 ==> volumes[ps[i]].backing == Some(ps[i + 1])
    decreases if next.Some? && next.value in volumes then rank(next.value) + 1 else 0
  {
    if next.None? || next.value !in volumes then []
    else [next.value] + Stops(volumes, rank, volumes[next.value].backing)
  }

  /** The layers of a chain are its volumes one by one, down to one without a backing store. */
  lemma {:induction false} ChainStops(volumes: Descs, rank: Path -> nat, next: Option<Path>)
    requires Descending(volumes, rank) && Chain(volumes, rank, next).Some?
    ensures var layers, ps := Chain(volumes, rank, next).value, Stops(volumes, rank, next);
            && |layers| == |ps| && (ps == [] <==> next.None?)
            && (ps != [] ==> volumes[ps[|ps| - 1]].backing.None?)
            && forall i :: 0 <= i < |ps| ==>
                 layers[i].format == volumes[ps[i]].format && Presents(layers[i].source, volumes[ps[i]])
    decreases if next.Some? && next.value in volumes then rank(next.value) + 1 else 0
  {
    if next.Some? { ChainStops(volumes, rank, volumes[next.value].backing); }
  }

  function Prepend(done: seq<Layer>, rest: Option<seq<Layer>>): Option<seq<Layer>> {
    if rest.Some? then Some(done + rest.value) else None
  }

  // ---------- the linked list ----------

  class BackingStore {
    var format: Option<string>
    var source: Source
    var backing: BackingStore?

    constructor ()
      ensures format == None && source == Unset && backing == null
    {
      format, source, backing := None, Unset, null;
    }
  }

  /** `nodes` are linked in order, end in nil, and carry `layers`. */
  ghost predicate Spells(head: BackingStore?, nodes: seq<BackingStore>, layers: seq<Layer>)
    reads nodes
  {
    && |nodes| == |layers|
    && (forall i, j :: 0 <= i < j < |nodes| ==> nodes[i] != nodes[j])
    && head == (if nodes == [] then null else nodes[0])
    && (forall i :: 0 <= i < |nodes| ==> Carries(nodes[i], layers[i]) && nodes[i].backing == Following(nodes, i))
  }

  ghost predicate Carries(node: BackingStore, layer: Layer)
    reads node
  {
    node.format == Some(layer.format) && node.source == layer.source
  }

  ghost function Following(nodes: seq<BackingStore>, i: nat): BackingStore? {
    if i + 1 < |nodes| then nodes[i + 1] else null
  }

  /** The i-th node presents the i-th volume. */
  ghost predicate Shown(volumes: Descs, ps: seq<Path>, nodes: seq<BackingStore>)
    requires forall p :: p in ps ==> p in volumes
    reads nodes
  {
    |nodes| == |ps| && forall i :: 0 <= i < |ps| ==>
      nodes[i].format == Some(volumes[ps[i]].format) && Presents(nodes[i].source, volumes[ps[i]])
  }

  /** The last node is still empty; the others carry `layers`. */
  ghost predicate Open(head: BackingStore?, nodes: seq<BackingStore>, layers: seq<Layer>, current: BackingStore)
    reads nodes
  {
    && |nodes| == |layers| + 1 && head == nodes[0] && current == nodes[|layers|] && current.backing == null
    && (forall i, j :: 0 <= i < j < |nodes| ==> nodes[i] != nodes[j])
    && (forall i :: 0 <= i < |layers| ==> Carries(nodes[i], layers[i]) && nodes[i].backing == nodes[i + 1])
  }

  method Fill(ghost head: BackingStore?, ghost nodes: seq<BackingStore>, ghost layers: seq<Layer>,
              current: BackingStore, layer: Layer)
    requires Open(head, nodes, layers, current)
    modifies current
    ensures Spells(head, nodes, layers + [layer])
  {
    current.format := Some(layer.format);
    current.source := layer.source;
  }

  method LinkTo(ghost head: BackingStore?, ghost nodes: seq<BackingStore>, ghost layers: seq<Layer>,
                current: BackingStore,
                below: BackingStore)
    requires nodes != [] && Spells(head, nodes, layers) && current == nodes[|nodes| - 1]
    requires below !in nodes && below.backing == null
    modifies current
    ensures Open(head, nodes + [below], layers, below)
  {
    current.backing := below;
  }

  datatype DomainDisk = DomainDisk(driver: string, discard: string, detectZeros: string, source: Source, dev: string,
                                   readOnly: bool, wwn: Option<string>, backing: BackingStore?)

  class Controller {
    const kind: string
    const model: string
    var queues: Option<nat>

    constructor (kind: string, model: string)
      ensures this.kind == kind && this.model == model && queues == None
    {
      this.kind, this.model, queues := kind, model, None;
    }
  }

  predicate IsVirtioScsi(c: Controller) { c.kind == "scsi" && c.model == "virtio-scsi" }

  function Devs(disks: seq<DomainDisk>): seq<string> {
    seq(|disks|, i requires 0 <= i < |disks| => disks[i].dev)
  }

  class DomainAction {
    const host: Libvirt
    /** Whether every call to the host gets through. */
    const sure: bool
    var disks: seq<DomainDisk>
    var controllers: seq<Controller>
    /** How many calls to the host have not been heard. */
    ghost var missed: nat

    constructor (host: Libvirt, sure: bool)
      ensures this.host == host && this.sure == sure && disks == []
      ensures |controllers| == 1 && fresh(controllers[0]) && IsVirtioScsi(controllers[0])
    {
      this.host, this.sure, disks, missed := host, sure, [], 0;
      new;
      var c := new Controller("scsi", "virtio-scsi");
      controllers := [c];
    }

    /** Sets the queues of every virtio-scsi controller and of no other. */
    method SCSIMultiqueue(queues: nat)
      requires forall i, j :: 0 <= i < j < |controllers| ==> controllers[i] != controllers[j]
      modifies controllers
      ensures forall c :: c in controllers ==>
                c.queues == if c.kind == "scsi" && c.model == "virtio-scsi" then Some(queues) else old(c.queues)
    {
      for i := 0 to |controllers|
        invariant forall j :: 0 <= j < i ==>
                    controllers[j].queues ==
                      if IsVirtioScsi(controllers[j]) then Some(queues) else old(controllers[j].queues)
        invariant forall j :: i <= j < |controllers| ==> controllers[j].queues == old(controllers[j].queues)
      {
        if IsVirtioScsi(controllers[i]) { controllers[i].queues := Some(queues); }
      }
    }

    /** A call to the host that may fail. */
    method Call() returns (ok: bool)
      modifies this`missed
      ensures missed == old(missed) + (if ok then 0 else 1) && (sure ==> ok)
    {
      ok := Chance(sure);
      if !ok { missed := missed + 1; }
    }

    /** The volume by its key, and its description. */
    method ReadLayer(key: Path) returns (fault: Option<Fault>, layer: Layer)
      modifies this`missed
      ensures fault.None? ==> missed == old(missed)
      ensures fault.None? ==> key in host.volumes && Presents(layer.source, host.volumes[key])
                              && layer.format == host.volumes[key].format
      ensures sure && fault.Some? ==> key !in host.volumes || host.volumes[key].kind == OtherKind
    {
      layer := Layer("", Unset);
      var ok := Call();
      if !ok { return Some(CallFault), layer; }
      if key !in host.volumes { return Some(NoVolume), layer; }
      var desc := host.volumes[key];
      var source := SetSource(desc.kind, desc.path);
      if source.None? { return Some(UnsupportedSource), layer; }
      return None, Layer(desc.format, source.value);
    }

    /** The loop down the chain: each turn fills the node `current` points at and links the next one behind it. */
    method Walk(start: Path, ghost rank: Path -> nat)
      returns (fault: Option<Fault>, head: BackingStore?, ghost nodes: seq<BackingStore>, ghost layers: seq<Layer>,
               turns: nat)
      requires Descending(host.volumes, rank)
      modifies this`missed
      ensures fault.None? ==> missed == old(missed)
      ensures forall n :: n in nodes ==> fresh(n)
      ensures fault.None? ==> Chain(host.volumes, rank, Some(start)) == Some(layers) && Spells(head, nodes, layers)
      ensures sure && fault.Some? ==> Chain(host.volumes, rank, Some(start)) == None
      ensures turns <= |host.volumes| + 1 && (fault.None? ==> turns == |layers| <= |host.volumes|)
    {
      var current := new BackingStore();
      head, nodes, layers, turns := current, [current], [], 0;
      var chain := start;
      ghost var visited: set<Path> := {};
      PrependNothing(Chain(host.volumes, rank, Some(start)));
      while true
        invariant (forall n :: n in nodes ==> fresh(n)) && current in nodes
        invariant Open(head, nodes, layers, current)
        invariant Chain(host.volumes, rank, Some(start)) == Prepend(layers, Chain(host.volumes, rank, Some(chain)))
        invariant missed == old(missed)
        invariant Above(host.volumes, rank, visited, chain) && |visited| == turns == |layers| <= |host.volumes|
        decreases if chain in host.volumes then rank(chain) + 1 else 0
      {
        turns := turns + 1;
        var layer;
        fault, layer := ReadLayer(chain);
        if fault.Some? { return; }
        Fill(head, nodes, layers, current, layer);
        UnfoldOne(host.volumes, rank, layers, chain, layer);
        layers := layers + [layer];
        Visit(host.volumes, rank, visited, chain);
        visited := visited + {chain};
        if host.volumes[chain].backing.None? {
          assert layers + [] == layers;
          return None, head, nodes, layers, turns;
        }
        chain := host.volumes[chain].backing.value;
        var below := new BackingStore();
        LinkTo(head, nodes, layers, current, below);
        current := below;
        nodes := nodes + [below];
      }
    }

    /** Looks a volume up and, if it is a file or a block device, appends a disk for it under the next free target. Any
     *  other kind of volume succeeds without a disk. */
    method Disk(volume: string, pool: string, wwn: Option<string>, readonly: Option<bool>, ghost rank: Path -> nat)
      returns (fault: Option<Fault>, ghost nodes: seq<BackingStore>, ghost layers: seq<Layer>)
      requires Descending(host.volumes, rank)
      modifies this`disks, this`missed
      ensures fault.None? ==> missed == old(missed)
      ensures forall n :: n in nodes ==> fresh(n)
      ensures fault.Some? ==> disks == old(disks)
      ensures fault.None? ==> Found(host, pool, volume)
      ensures fault.None? && DescOf(host, pool, volume).kind == OtherKind ==> disks == old(disks)
      ensures fault.None? && DescOf(host, pool, volume).kind != OtherKind ==>
                var desc := DescOf(host, pool, volume);
                && |disks| == |old(disks)| + 1 && disks[..|old(disks)|] == old(disks)
                && IsDisk(disks[|old(disks)|], desc, wwn, readonly == Some(true))
                && (exists n: nat ::
                      TargetDev.IsNext(Devs(old(disks)), n) && disks[|old(disks)|].dev == TargetDev.Name(n))
                && Chain(host.volumes, rank, desc.backing) == Some(layers)
                && Spells(disks[|old(disks)|].backing, nodes, layers)
                && Shown(host.volumes, Stops(host.volumes, rank, desc.backing), nodes)
      ensures sure ==>
                (fault.None? <==> Attachable(host, pool, volume, rank))
    {
      nodes, layers := [], [];
      var dev, tries := TargetDev.Next(Devs(disks));
      var d := DomainDisk("", "unmap", "unmap", Unset, dev, false, None, null);
      if readonly == Some(true) { d := d.(readOnly := true, discard := "", detectZeros := ""); }
      var desc;
      fault, desc := LookUp(pool, volume);
      if fault.Some? { return; }
      d := d.(driver := if desc.format == "iso" then "raw" else desc.format);
      if desc.kind == OtherKind { return; }
      var source := SetSource(desc.kind, desc.path);
      d := d.(source := source.value);
      if desc.backing.Some? {
        var head, turns;
        fault, head, nodes, layers, turns := Walk(desc.backing.value, rank);
        if fault.Some? { return; }
        d := d.(backing := head);
      }
      ChainStops(host.volumes, rank, desc.backing);
      d := d.(wwn := wwn);
      disks := disks + [d];
    }

    /** The pool, the volume in it and the volume's description. */
    method LookUp(pool: string, volume: string) returns (fault: Option<Fault>, desc: Desc)
      modifies this`missed
      ensures fault.None? ==> missed == old(missed)
      ensures fault.None? ==> Found(host, pool, volume) && desc == DescOf(host, pool, volume)
      ensures sure && fault.Some? ==> !Found(host, pool, volume)
    {
      desc := Desc(OtherKind, "", Path(Place("", ""), ""), None);
      var ok := Call();
      if !ok { return Some(CallFault), desc; }
      if pool !in host.pools { return Some(NoPool), desc; }
      ok := Call();
      if !ok { return Some(CallFault), desc; }
      var key := Path(Place(host.name, pool), volume);
      if key !in host.volumes { return Some(NoVolume), desc; }
      ok := Call();
      if !ok { return Some(CallFault), desc; }
      return None, host.volumes[key];
    }
  }

  predicate Found(host: Libvirt, pool: string, volume: string) {
    pool in host.pools && Path(Place(host.name, pool), volume) in host.volumes
  }

  function DescOf(host: Libvirt, pool: string, volume: string): Desc
    requires Found(host, pool, volume)
  {
    host.volumes[Path(Place(host.name, pool), volume)]
  }

  /** The volume is there and so is everything it lies on, as files and block devices. */
  ghost predicate Attachable(host: Libvirt, pool: string, volume: string, rank: Path -> nat)
    requires Descending(host.volumes, rank)
  {
    && Found(host, pool, volume)
    && (|| DescOf(host, pool, volume).kind == OtherKind
        || Chain(host.volumes, rank, DescOf(host, pool, volume).backing).Some?)
  }

  /** The disk presents the described volume: an iso as raw, and a read-only one without discards. */
  predicate IsDisk(d: DomainDisk, desc: Desc, wwn: Option<string>, readOnly: bool) {
    && (desc.kind == File ==> d.source == FileSource(desc.path))
    && (desc.kind == Block ==> d.source == BlockSource(desc.path))
    && desc.kind != OtherKind
    && (desc.format == "iso" ==> d.driver == "raw") && (desc.format != "iso" ==> d.driver == desc.format)
    && d.readOnly == readOnly && d.wwn == wwn
    && (if readOnly then d.discard == d.detectZeros == "" else d.discard == d.detectZeros == "unmap")
    && (d.backing == null <==> desc.backing.None?)
  }

  /** All that has been visited lies above `chain`. */
  ghost predicate Above(volumes: Descs, rank: Path -> nat, visited: set<Path>, chain: Path) {
    visited <= volumes.Keys && (chain in volumes ==> forall p :: p in visited ==> rank(chain) < rank(p))
  }

  lemma Visit(volumes: Descs, rank: Path -> nat, visited: set<Path>, chain: Path)
    requires Descending(volumes, rank) && Above(volumes, rank, visited, chain) && chain in volumes
    ensures |visited + {chain}| == |visited| + 1 <= |volumes|
    ensures volumes[chain].backing.Some? ==> Above(volumes, rank, visited + {chain}, volumes[chain].backing.value)
  {
    assert chain !in visited;
    SubsetFits(visited + {chain}, volumes.Keys);
  }

  /** Unfolding the next link of a chain whose first links are `done`. */
  lemma UnfoldOne(volumes: Descs, rank: Path -> nat, done: seq<Layer>, chain: Path, layer: Layer)
    requires Descending(volumes, rank) && chain in volumes
    requires Presents(layer.source, volumes[chain]) && layer.format == volumes[chain].format
    ensures var rest := Chain(volumes, rank, volumes[chain].backing);
            Prepend(done, Chain(volumes, rank, Some(chain))) == Prepend(done + [layer], rest)
  {
    var d := volumes[chain];
    var rest := Chain(volumes, rank, d.backing);
    if rest.Some? { assert done + ([layer] + rest.value) == (done + [layer]) + rest.value; }
  }

  lemma PrependNothing(rest: Option<seq<Layer>>)
    ensures Prepend([], rest) == rest
  {
    if rest.Some? { assert [] + rest.value == rest.value; }
  }

  lemma {:induction false} SubsetFits<T>(s: set<T>, t: set<T>)
    requires s <= t
    ensures |s| <= |t|
    decreases |s|
  {
    if s != {} {
      var x :| x in s;
      SubsetFits(s - {x}, t - {x});
    }
  }

  // ---------- a whole definition ----------

  datatype Request = Request(pool: string, volume: string, wwn: Option<string>, readonly: Option<bool>)

  /** The disk shows the requested volume. */
  predicate Shows(host: Libvirt, d: DomainDisk, r: Request) {
    && Found(host, r.pool, r.volume)
    && IsDisk(d, DescOf(host, r.pool, r.volume), r.wwn, r.readonly == Some(true))
  }

  /** A volume of another kind does not become a disk. */
  predicate Skipped(host: Libvirt, r: Request) {
    Found(host, r.pool, r.volume) && DescOf(host, r.pool, r.volume).kind == OtherKind
  }

  /** The requests that end up as disks. */
  function Wanted(host: Libvirt, requests: seq<Request>): seq<Request> {
    if requests == [] then [] else
    var last := requests[|requests| - 1];
    Wanted(host, requests[..|requests| - 1])
    + (if Skipped(host, last) then [] else [last])
  }

  /** One disk per request in order, except for volumes of other kinds, under the first names in order. */
  ghost predicate Attached(host: Libvirt, disks: seq<DomainDisk>, requests: seq<Request>) {
    var wanted := Wanted(host, requests);
    && TargetDev.InOrder(Devs(disks)) && |disks| == |wanted|
    && (forall i :: 0 <= i < |wanted| ==> Shows(host, disks[i], wanted[i]))
  }

  /** The disk's backing stores spell the chain of the requested volume. */
  ghost predicate Chained(host: Libvirt, d: DomainDisk, r: Request, rank: Path -> nat, nodes: seq<BackingStore>)
    requires Descending(host.volumes, rank) && Found(host, r.pool, r.volume)
    reads nodes
  {
    var chain := Chain(host.volumes, rank, DescOf(host, r.pool, r.volume).backing);
    && chain.Some? && Spells(d.backing, nodes, chain.value)
    && Shown(host.volumes, Stops(host.volumes, rank, DescOf(host, r.pool, r.volume).backing), nodes)
  }

  ghost function Flat(chains: seq<seq<BackingStore>>): (nodes: set<BackingStore>)
    ensures forall i, n :: 0 <= i < |chains| && n in chains[i] ==> n in nodes
  {
    set i, n | 0 <= i < |chains| && n in chains[i] :: n
  }

  /** The i-th disk has the i-th chain. */
  ghost predicate AllChained(host: Libvirt, disks: seq<DomainDisk>, requests: seq<Request>, rank: Path -> nat,
                             chains: seq<seq<BackingStore>>)
    requires Descending(host.volumes, rank) && Attached(host, disks, requests)
    reads Flat(chains)
  {
    && |chains| == |disks|
    && (forall i :: 0 <= i < |disks| ==> Chained(host, disks[i], Wanted(host, requests)[i], rank, chains[i]))
  }

  lemma AttachedMore(host: Libvirt, before: seq<DomainDisk>, after: seq<DomainDisk>, done: seq<Request>, r: Request)
    requires Attached(host, before, done)
    requires if Skipped(host, r) then after == before
             else |after| == |before| + 1 && after[..|before|] == before && Shows(host, after[|before|], r)
                  && TargetDev.InOrder(Devs(after))
    ensures Attached(host, after, done + [r])
  {
    assert (done + [r])[..|done|] == done;
    var wanted := Wanted(host, done + [r]);
    forall i | 0 <= i < |wanted|
      ensures Shows(host, after[i], wanted[i])
    {
      if i < |before| { assert after[i] == before[i]; }
    }
  }

  method AttachOne(a: DomainAction, ghost done: seq<Request>, r: Request, ghost rank: Path -> nat)
    returns (fault: Option<Fault>, ghost nodes: seq<BackingStore>)
    requires Descending(a.host.volumes, rank) && Attached(a.host, a.disks, done)
    modifies a`disks, a`missed
    ensures fault.None? ==> a.missed == old(a.missed)
    ensures Attached(a.host, a.disks, if fault.None? then done + [r] else done)
    ensures a.disks != old(a.disks) ==>
              && fault.None? && |a.disks| == |old(a.disks)| + 1 && a.disks[..|old(a.disks)|] == old(a.disks)
              && Found(a.host, r.pool, r.volume) && !Skipped(a.host, r)
              && Chained(a.host, a.disks[|old(a.disks)|], r, rank, nodes)
    ensures a.disks == old(a.disks) && fault.None? ==> Skipped(a.host, r)
    ensures a.sure ==> (fault.None? <==> Attachable(a.host, r.pool, r.volume, rank))
  {
    ghost var before := a.disks;
    ghost var layers;
    fault, nodes, layers := a.Disk(r.volume, r.pool, r.wwn, r.readonly, rank);
    if fault.None? {
      if a.disks != before { InOrderNext(before, a.disks); }
      AttachedMore(a.host, before, a.disks, done, r);
    }
  }

  method AttachNext(a: DomainAction, ghost done: seq<Request>, r: Request, ghost rank: Path -> nat,
                    ghost chains: seq<seq<BackingStore>>)
    returns (fault: Option<Fault>, ghost more: seq<seq<BackingStore>>)
    requires Descending(a.host.volumes, rank) && Attached(a.host, a.disks, done)
    requires AllChained(a.host, a.disks, done, rank, chains)
    modifies a`disks, a`missed
    ensures fault.None? ==> a.missed == old(a.missed)
    ensures Attached(a.host, a.disks, if fault.None? then done + [r] else done)
    ensures AllChained(a.host, a.disks, if fault.None? then done + [r] else done, rank, more)
    ensures a.sure ==> (fault.None? <==> Attachable(a.host, r.pool, r.volume, rank))
  {
    ghost var before := a.disks;
    ghost var nodes;
    fault, nodes := AttachOne(a, done, r, rank);
    more := chains;
    if a.disks != before {
      OneMore(a.host, before, a.disks, done, r, rank, chains, nodes);
      more := chains + [nodes];
    } else {
      assert (done + [r])[..|done|] == done;
      assert fault.None? ==> Wanted(a.host, done + [r]) == Wanted(a.host, done);
    }
  }

  lemma OneMore(host: Libvirt, before: seq<DomainDisk>, after: seq<DomainDisk>, done: seq<Request>, r: Request,
                rank: Path -> nat, chains: seq<seq<BackingStore>>, nodes: seq<BackingStore>)
    requires Descending(host.volumes, rank) && Attached(host, before, done) && Attached(host, after, done + [r])
    requires AllChained(host, before, done, rank, chains)
    requires |after| == |before| + 1 && after[..|before|] == before && Found(host, r.pool, r.volume)
    requires !Skipped(host, r)
    requires Chained(host, after[|before|], r, rank, nodes)
    ensures AllChained(host, after, done + [r], rank, chains + [nodes])
  {
    assert (done + [r])[..|done|] == done;
    var more := chains + [nodes];
    forall i | 0 <= i < |after|
      ensures Chained(host, after[i], Wanted(host, done + [r])[i], rank, more[i])
    {
      if i < |before| { assert after[i] == before[i]; }
    }
  }

  /** Any number of Disk calls on a fresh definition, up to the first fault: every disk keeps its own chain. */
  method AttachAll(a: DomainAction, requests: seq<Request>, ghost rank: Path -> nat)
    returns (fault: Option<Fault>, ghost done: nat, ghost chains: seq<seq<BackingStore>>)
    requires Descending(a.host.volumes, rank) && a.disks == []
    modifies a`disks, a`missed
    ensures fault.None? ==> a.missed == old(a.missed)
    ensures done <= |requests| && (fault.None? ==> done == |requests|)
    ensures Attached(a.host, a.disks, requests[..done]) && AllChained(a.host, a.disks, requests[..done], rank, chains)
    ensures a.sure ==> (fault.None? <==> forall r :: r in requests ==> Attachable(a.host, r.pool, r.volume, rank))
  {
    done, chains := 0, [];
    for i := 0 to |requests|
      invariant a.missed == old(a.missed)
      invariant done == i && Attached(a.host, a.disks, requests[..i])
      invariant AllChained(a.host, a.disks, requests[..i], rank, chains)
      invariant a.sure ==> forall j :: 0 <= j < i ==> Attachable(a.host, requests[j].pool, requests[j].volume, rank)
    {
      assert requests[..i] + [requests[i]] == requests[..i + 1];
      fault, chains := AttachNext(a, requests[..i], requests[i], rank, chains);
      if fault.Some? { return; }
      done := i + 1;
    }
    fault := None;
    assert requests[..|requests|] == requests;
  }

  lemma InOrderNext(before: seq<DomainDisk>, after: seq<DomainDisk>)
    requires |after| == |before| + 1 && after[..|before|] == before && TargetDev.InOrder(Devs(before))
    requires exists n :: TargetDev.IsNext(Devs(before), n) && after[|before|].dev == TargetDev.Name(n)
    ensures TargetDev.InOrder(Devs(after))
  {
    var n :| TargetDev.IsNext(Devs(before), n) && after[|before|].dev == TargetDev.Name(n);
    TargetDev.OrderKept(Devs(before), n);
    assert Devs(after) == Devs(before) + [TargetDev.Name(n)];
  }

  // ---------- the cluster's hosts have such chains ----------

  /** What the host `name` of the cluster reports about its volumes. */
  function Describe(w: World, name: string, format: Path -> string): Descs {
    map p | p in w.volumes && p.place.host == name ::
      Desc(w.volumes[p].kind, format(p), p,
           if w.volumes[p].backing.Some? then Some(w.volumes[p].backing.value.path) else None)
  }

  function Age(w: World): Path -> nat {
    p => if p in w.volumes then w.volumes[p].born else 0
  }

  /** In every state in which no deletion has coincided with a reference being made, the loop down the chain of any
   *  volume ends: the age of the volumes is a rank. */
  lemma ChainsDescend(w: World, name: string, format: Path -> string)
    requires Reachable(w) && Undisputed(w)
    ensures Descending(Describe(w, name, format), Age(w))
  {
    ReachableInv(w);
    LinksResolve(w);
  }

  /** And it ends well: with file and block volumes only, no chain runs into a missing or an unsupported volume. */
  lemma {:induction false} ChainsResolve(w: World, name: string, format: Path -> string, next: Option<Path>)
    requires Reachable(w) && Undisputed(w)
    requires forall p :: p in w.volumes && p.place.host == name ==> w.volumes[p].kind != OtherKind
    requires next.Some? ==> next.value in w.volumes && next.value.place.host == name
    ensures Descending(Describe(w, name, format), Age(w))
    ensures Chain(Describe(w, name, format), Age(w), next).Some?
    decreases if next.Some? then Age(w)(next.value) + 1 else 0
  {
    ChainsDescend(w, name, format);
    if next.Some? {
      var p := next.value;
      var volumes := Describe(w, name, format);
      assert p in volumes && volumes[p].kind != OtherKind;
      if w.volumes[p].backing.Some? {
        ReachableInv(w);
        LinksResolve(w);
        assert VolumeLabelled(w.objs[w.volumes[p].owner], w.volumes[p], p);
        ChainsResolve(w, name, format, Some(w.volumes[p].backing.value.path));
      }
    }
  }
}
