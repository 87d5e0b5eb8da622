/** LiveResize of internal/action/volume.go on the disks that Disk of internal/action/domain.go put in a definition. */
module VolumeAction {
  import opened Common
  import opened Protocol
  import opened DomainAction
  import TargetDev

  /** How LiveResize recognises the volume: by the path of a file or block device, or by pool and name. */
  predicate Matches(d: DomainDisk, path: Path, pool: string, name: string) {
    d.source == FileSource(path) || d.source == BlockSource(path) || d.source == VolumeSource(pool, name)
  }

  datatype Resized = Device(dev: string, bytes: nat) | NoMatch

  /** The part of LiveResize for a running domain: the first disk that matches is resized. */
  method LiveResize(disks: seq<DomainDisk>, path: Path, pool: string, name: string, bytes: nat) returns (r: Resized)
    ensures r.Device? ==>
              r.bytes == bytes && exists i :: 0 <= i < |disks| && Matches(disks[i], path, pool, name)
                                              && r.dev == disks[i].dev
                                              && forall j :: 0 <= j < i ==> !Matches(disks[j], path, pool, name)
    ensures r.NoMatch? <==> forall j :: 0 <= j < |disks| ==> !Matches(disks[j], path, pool, name)
  {
    for i := 0 to |disks|
      invariant forall j :: 0 <= j < i ==> !Matches(disks[j], path, pool, name)
    {
      var ok := false;
      match disks[i].source {
        case FileSource(file) => ok := file == path;
        case BlockSource(dev) => ok := dev == path;
        case VolumeSource(p, volume) => ok := volume == name && p == pool;
        case Unset =>
      }
      if ok { return Device(disks[i].dev, bytes); }
    }
    r := NoMatch;
  }

  /** A volume's key equals its path, and no volume is attached twice. */
  predicate Plain(host: Libvirt, requests: seq<Request>) {
    && (forall p :: p in host.volumes ==> host.volumes[p].path == p)
    && Distinct(requests)
  }

  predicate Distinct(requests: seq<Request>) {
    forall i, j :: 0 <= i < j < |requests| ==>
      (requests[i].pool, requests[i].volume) != (requests[j].pool, requests[j].volume)
  }

  /** A disk that shows one request matches the volume of another only if they are the same volume. */
  lemma MatchIsIdentity(host: Libvirt, d: DomainDisk, r: Request, pool: string, name: string)
    requires forall p :: p in host.volumes ==> host.volumes[p].path == p
    requires Shows(host, d, r)
    ensures Matches(d, Path(Place(host.name, pool), name), pool, name) <==> r.pool == pool && r.volume == name
  {
  }

  /** What is asked for twice is not, and what becomes a disk was asked for. */
  lemma {:induction false} WantedFrom(host: Libvirt, requests: seq<Request>)
    requires Distinct(requests)
    ensures Distinct(Wanted(host, requests))
    ensures forall r :: r in Wanted(host, requests) <==> r in requests && !Skipped(host, r)
    decreases |requests|
  {
    if requests != [] {
      var last, rest := requests[|requests| - 1], requests[..|requests| - 1];
      WantedFrom(host, rest);
      forall r | r in rest
        ensures (r.pool, r.volume) != (last.pool, last.volume)
      {
        var i :| 0 <= i < |rest| && rest[i] == r;
        assert requests[i] == r;
      }
      assert requests == rest + [last];
    }
  }

  /** The disk at the j-th place, under the j-th name, matches exactly the volume wanted there. */
  lemma MatchesWanted(host: Libvirt, disks: seq<DomainDisk>, requests: seq<Request>, pool: string, name: string)
    requires Attached(host, disks, requests) && Plain(host, requests)
    ensures forall j :: 0 <= j < |disks| ==>
              && disks[j].dev == TargetDev.Name(j)
              && (Matches(disks[j], Path(Place(host.name, pool), name), pool, name)
                  <==> Wanted(host, requests)[j].pool == pool && Wanted(host, requests)[j].volume == name)
  {
    var wanted := Wanted(host, requests);
    forall j | 0 <= j < |disks|
      ensures disks[j].dev == TargetDev.Name(j)
      ensures Matches(disks[j], Path(Place(host.name, pool), name), pool, name)
              <==> wanted[j].pool == pool && wanted[j].volume == name
    {
      MatchIsIdentity(host, disks[j], wanted[j], pool, name);
      assert Devs(disks)[j] == TargetDev.Name(j);
    }
  }

  /** The i-th disk and no other matches the i-th volume. */
  lemma OnlyMatch(host: Libvirt, disks: seq<DomainDisk>, requests: seq<Request>, i: nat)
    requires Attached(host, disks, requests) && Plain(host, requests) && i < |Wanted(host, requests)|
    ensures var r := Wanted(host, requests)[i]; var path := Path(Place(host.name, r.pool), r.volume);
            |disks| == |Wanted(host, requests)| && disks[i].dev == TargetDev.Name(i)
            && forall j :: 0 <= j < |disks| ==> (Matches(disks[j], path, r.pool, r.volume) <==> j == i)
  {
    var wanted := Wanted(host, requests);
    WantedFrom(host, requests);
    MatchesWanted(host, disks, requests, wanted[i].pool, wanted[i].volume);
    forall j | 0 <= j < |wanted| && j != i
      ensures (wanted[j].pool, wanted[j].volume) != (wanted[i].pool, wanted[i].volume)
    {
      assert Distinct(wanted);
    }
  }

  /** On a running domain defined by the operator, whatever else it lists, a live resize of the i-th volume that became
   *  a disk finds that disk and resizes exactly the device that was chosen for it: the i-th name. */
  method ResizeAttached(host: Libvirt, disks: seq<DomainDisk>, requests: seq<Request>, i: nat, bytes: nat)
    returns (r: Resized)
    requires Attached(host, disks, requests) && Plain(host, requests) && i < |Wanted(host, requests)|
    ensures r == Device(TargetDev.Name(i), bytes)
  {
    var pool, name := Wanted(host, requests)[i].pool, Wanted(host, requests)[i].volume;
    OnlyMatch(host, disks, requests, i);
    r := LiveResize(disks, Path(Place(host.name, pool), name), pool, name, bytes);
  }

  /** The request for a volume becomes a disk if and only if there is one and the volume is a file or a block device. */
  lemma WantedIff(host: Libvirt, requests: seq<Request>, pool: string, name: string)
    requires Distinct(requests) && Found(host, pool, name)
    ensures (exists q :: q in Wanted(host, requests) && q.pool == pool && q.volume == name)
            <==> (DescOf(host, pool, name).kind != OtherKind
                  && exists q :: q in requests && q.pool == pool && q.volume == name)
  {
    WantedFrom(host, requests);
    if q :| q in requests && q.pool == pool && q.volume == name && !Skipped(host, q) {
      assert q in Wanted(host, requests);
    }
  }

  /** A live resize finds a match if and only if the volume is listed and is a file or a block device. */
  method ResizeExactly(host: Libvirt, disks: seq<DomainDisk>, requests: seq<Request>, pool: string, name: string,
                       bytes: nat)
    returns (r: Resized)
    requires Attached(host, disks, requests) && Plain(host, requests) && Found(host, pool, name)
    ensures r.Device? <==> (DescOf(host, pool, name).kind != OtherKind
                            && exists q :: q in requests && q.pool == pool && q.volume == name)
  {
    MatchesWanted(host, disks, requests, pool, name);
    r := LiveResize(disks, Path(Place(host.name, pool), name), pool, name, bytes);
    assert r.Device? <==> exists q :: q in Wanted(host, requests) && q.pool == pool && q.volume == name;
    WantedIff(host, requests, pool, name);
  }

  /** A volume of any other kind never becomes a disk, so on a running domain its live resize finds no match. */
  method ResizeUnattached(host: Libvirt, disks: seq<DomainDisk>, requests: seq<Request>, pool: string, name: string,
                          bytes: nat)
    returns (r: Resized)
    requires Attached(host, disks, requests) && forall p :: p in host.volumes ==> host.volumes[p].path == p
    requires Found(host, pool, name) && DescOf(host, pool, name).kind == OtherKind
    ensures r == NoMatch
  {
    var wanted := Wanted(host, requests);
    forall j | 0 <= j < |disks|
      ensures !Matches(disks[j], Path(Place(host.name, pool), name), pool, name)
    {
      MatchIsIdentity(host, disks[j], wanted[j], pool, name);
      assert DescOf(host, wanted[j].pool, wanted[j].volume).kind != OtherKind;
    }
    r := LiveResize(disks, Path(Place(host.name, pool), name), pool, name, bytes);
  }
}
