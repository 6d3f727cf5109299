/** `pubSectorToPriv` (wincount.go:206-225): the on-disk locations of a
    miner's sectors under `path`, one private entry per public sector. */
module SectorPaths {
  import opened Wrappers
  import opened Types
  import opened Format
  import opened Collaborators

  /** `fmt.Sprintf("%s/cache/s-t0%d-%d", path, mid, number)` */
  function CachePath(path: string, mid: ActorId, number: SectorNumber): string {
    path + "/cache/s-t0" + Decimal(mid) + "-" + Decimal(number)
  }

  /** `fmt.Sprintf("%s/sealed/s-t0%d-%d", path, mid, number)` */
  function SealedPath(path: string, mid: ActorId, number: SectorNumber): string {
    path + "/sealed/s-t0" + Decimal(mid) + "-" + Decimal(number)
  }

  /** A cache path is `path`, then `/cache/s-t0`, then the miner's digits,
      a dash and the sector's digits; a sealed path likewise with `/sealed/s-t0`. */
  lemma PathShapes(path: string, mid: ActorId, number: SectorNumber)
    ensures var r, m, n := CachePath(path, mid, number), Decimal(mid), Decimal(number);
      && |r| == |path| + 11 + |m| + 1 + |n|
      && r[..|path|] == path && r[|path|..|path| + 11] == "/cache/s-t0"
      && r[|path| + 11..|r| - |n| - 1] == m && r[|r| - |n| - 1] == '-' && r[|r| - |n|..] == n
    ensures var r, m, n := SealedPath(path, mid, number), Decimal(mid), Decimal(number);
      && |r| == |path| + 12 + |m| + 1 + |n|
      && r[..|path|] == path && r[|path|..|path| + 12] == "/sealed/s-t0"
      && r[|path| + 12..|r| - |n| - 1] == m && r[|r| - |n| - 1] == '-' && r[|r| - |n|..] == n
  {
    Pieces(path, "/cache/s-t0", Decimal(mid), Decimal(number));
    Pieces(path, "/sealed/s-t0", Decimal(mid), Decimal(number));
  }

  lemma Pieces(path: string, dir: string, m: string, n: string)
    ensures var r := path + dir + m + "-" + n;
      && |r| == |path| + |dir| + |m| + 1 + |n|
      && r[..|path|] == path && r[|path|..|path| + |dir|] == dir
      && r[|path| + |dir|..|r| - |n| - 1] == m && r[|r| - |n| - 1] == '-' && r[|r| - |n|..] == n
  {
    var a := path + dir;
    var b := a + m;
    var c := b + "-";
    var r := c + n;
    assert r[..|c|] == c && r[|c|..] == n;
    assert c[..|b|] == b && c[|b|] == '-';
    assert b[..|a|] == a && b[|a|..] == m;
    assert a[..|path|] == path && a[|path|..] == dir;
    assert r[..|path|] == a[..|path|];
    assert r[|path|..|path| + |dir|] == a[|path|..];
    assert r[|a|..|b|] == b[|a|..];
  }

  /** A string of digits followed by `-` can be split back apart. */
  lemma SplitAtDash(x: string, y: string, x2: string, y2: string)
    requires AllDigits(x) && AllDigits(x2)
    requires x + "-" + y == x2 + "-" + y2
    ensures x == x2 && y == y2
  {
    var s := x + "-" + y;
    assert s[|x|] == '-';
    assert s == x2 + "-" + y2;
    assert s[|x2|] == '-';
    assert x == s[..|x|] == x2;
    assert y == s[|x| + 1..] == y2;
  }

  lemma SuffixAfterSamePrefix(p: string, a: string, b: string)
    requires p + a == p + b
    ensures a == b
  {
    assert a == (p + a)[|p|..];
    assert b == (p + b)[|p|..];
  }

  /** Two sectors share a cache directory only if they are the same sector
      of the same miner. */
  lemma {:induction false} CachePathInjective(path: string, m: ActorId, n: SectorNumber, m2: ActorId, n2: SectorNumber)
    requires CachePath(path, m, n) == CachePath(path, m2, n2)
    ensures m == m2 && n == n2
  {
    var p := path + "/cache/s-t0";
    assert CachePath(path, m, n) == p + (Decimal(m) + "-" + Decimal(n));
    assert CachePath(path, m2, n2) == p + (Decimal(m2) + "-" + Decimal(n2));
    SuffixAfterSamePrefix(p, Decimal(m) + "-" + Decimal(n), Decimal(m2) + "-" + Decimal(n2));
    SplitAtDash(Decimal(m), Decimal(n), Decimal(m2), Decimal(n2));
    DecimalInjective(m, m2);
    DecimalInjective(n, n2);
  }

  /** Likewise for sealed files. */
  lemma {:induction false} SealedPathInjective(path: string, m: ActorId, n: SectorNumber, m2: ActorId, n2: SectorNumber)
    requires SealedPath(path, m, n) == SealedPath(path, m2, n2)
    ensures m == m2 && n == n2
  {
    var p := path + "/sealed/s-t0";
    assert SealedPath(path, m, n) == p + (Decimal(m) + "-" + Decimal(n));
    assert SealedPath(path, m2, n2) == p + (Decimal(m2) + "-" + Decimal(n2));
    SuffixAfterSamePrefix(p, Decimal(m) + "-" + Decimal(n), Decimal(m2) + "-" + Decimal(n2));
    SplitAtDash(Decimal(m), Decimal(n), Decimal(m2), Decimal(n2));
    DecimalInjective(m, m2);
    DecimalInjective(n, n2);
  }

  /** No cache directory is ever also a sealed file. */
  lemma CacheAndSealedPathsDiffer(path: string, m: ActorId, n: SectorNumber, m2: ActorId, n2: SectorNumber)
    ensures CachePath(path, m, n) != SealedPath(path, m2, n2)
  {
    assert CachePath(path, m, n)[|path| + 1] == 'c';
    assert SealedPath(path, m2, n2)[|path| + 1] == 's';
  }

  /** The entry built for one sector once its Winning PoSt proof type is known. */
  function PrivateEntry(mid: ActorId, s: SectorInfo, path: string, postProofType: int): PrivateSectorInfo {
    PrivateSectorInfo(CachePath(path, mid, s.sectorNumber), postProofType, SealedPath(path, mid, s.sectorNumber), s)
  }

  /** The list `out` the loop builds before sorting: one entry per sector, in
      input order, or the error of the first sector whose seal proof has no
      Winning PoSt proof type. */
  function PrivateEntries(proofType: int -> Result<int, Error>, mid: ActorId, sectors: seq<SectorInfo>, path: string): (r: Result<seq<PrivateSectorInfo>, Error>)
    ensures r.Ok? <==> forall k :: 0 <= k < |sectors| ==> proofType(sectors[k].sealProof).Ok?
    ensures r.Ok? ==> |r.value| == |sectors|
    ensures r.Ok? ==> forall k :: 0 <= k < |sectors| ==>
      r.value[k] == PrivateEntry(mid, sectors[k], path, proofType(sectors[k].sealProof).value)
    ensures r.Err? ==> exists k :: 0 <= k < |sectors| && proofType(sectors[k].sealProof) == Err(r.error)
                                   && forall j :: 0 <= j < k ==> proofType(sectors[j].sealProof).Ok?
    decreases |sectors|
  {
    if sectors == [] then Ok([])
    else
      var front := sectors[..|sectors| - 1];
      var s := sectors[|sectors| - 1];
      match PrivateEntries(proofType, mid, front, path)
      case Err(e) => Err(e)
      case Ok(entries) =>
        match proofType(s.sealProof)
        case Err(e) => Err(e)
        case Ok(pt) => Ok(entries + [PrivateEntry(mid, s, path, pt)])
  }

  /** The library's sort (`ffi.NewSortedPrivateSectorInfo`) only reorders:
      its key is not part of this model, but it keeps every entry. */
  ghost predicate SortPermutes(env: Env) {
    forall entries: seq<PrivateSectorInfo> :: multiset(env.sortPrivateSectors(entries)) == multiset(entries)
  }

  /** The loop of `pubSectorToPriv`, handing its list to the library's sort. */
  method PubSectorToPriv(env: Env, mid: ActorId, sectorInfo: seq<SectorInfo>, path: string)
    returns (r: Result<seq<PrivateSectorInfo>, Error>)
    ensures r == match PrivateEntries(env.registeredWinningPoStProof, mid, sectorInfo, path)
                 case Ok(entries) => Ok(env.sortPrivateSectors(entries))
                 case Err(e) => Err(e)
  {
    var out: seq<PrivateSectorInfo> := [];
    var i := 0;
    while i < |sectorInfo|
      invariant 0 <= i <= |sectorInfo|
      invariant PrivateEntries(env.registeredWinningPoStProof, mid, sectorInfo[..i], path) == Ok(out)
    {
      var s := sectorInfo[i];
      var postProofType := env.registeredWinningPoStProof(s.sealProof);
      if postProofType.Err? {
        ghost var all := PrivateEntries(env.registeredWinningPoStProof, mid, sectorInfo, path);
        assert all.Err? && all.error == postProofType.error by {
          assert forall j :: 0 <= j < i ==> sectorInfo[..i][j] == sectorInfo[j];
        }
        return Err(postProofType.error);
      }
      assert sectorInfo[..i + 1][..i] == sectorInfo[..i];
      out := out + [PrivateEntry(mid, s, path, postProofType.value)];
      i := i + 1;
    }
    assert sectorInfo[..i] == sectorInfo;
    r := Ok(env.sortPrivateSectors(out));
  }
}
