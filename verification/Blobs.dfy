/**
  The blob directory: opaque files under one root, written all or nothing and
  swept by age.  Entries are keyed by the path relative to the root.
 */
module Blobs {
  import opened Outcomes
  import opened Sums

  type Bytes = seq<bv8>

  datatype File = File(mtime: int, content: Bytes)

  datatype BlobError = BadPath | IOError | PartExists

  // Where a write breaks off, if it does.
  datatype Fault = NoFault | BeforeOpen | WhileCopying(copied: nat) | AtSync | AtRename

  /** A path the root does not contain, or the root itself. */
  predicate Escapes(rel: string) {
    || rel == ""
    || (exists i :: 0 <= i < |rel| - 1 && rel[i] == '.' && rel[i + 1] == '.')
    || rel[0] == '/'
    || (forall i :: 0 <= i < |rel| ==> rel[i] == '.' || rel[i] == '/')
  }

  function Resolve(rel: string): Result<string, BlobError> {
    if Escapes(rel) then Err(BadPath) else Ok(rel)
  }

  predicate PlainName(s: string) {
    s != "" && forall i :: 0 <= i < |s| ==> s[i] != '.' && s[i] != '/'
  }

  /** The relative path of a blob: the owner's directory, a random name, the suffix. */
  function BlobName(owner: string, random: string): string {
    owner + "/" + random + ".bin"
  }

  function PartName(rel: string): string {
    rel + ".part"
  }

  /** Every path Write hands out is one that Open and Remove accept. */
  lemma WrittenNamesResolve(owner: string, random: string)
    requires PlainName(owner) && PlainName(random)
    ensures Resolve(BlobName(owner, random)) == Ok(BlobName(owner, random))
  {
    var rel, dot := BlobName(owner, random), |owner| + 1 + |random|;
    assert rel[0] == owner[0];
    forall i | 0 <= i < |owner|
      ensures rel[i] != '.'
    {
      assert rel[i] == owner[i];
    }
    forall i | |owner| < i < dot
      ensures rel[i] != '.'
    {
      assert rel[i] == random[i - |owner| - 1];
    }
  }

  // ---- names ----

  /** Only a slash separates the owner from the random part, so a name determines both. */
  lemma NamesDiffer(owner: string, random: string, owner': string, random': string)
    requires PlainName(owner) && PlainName(random) && BlobName(owner, random) == BlobName(owner', random')
    ensures owner == owner' && random == random'
  {
    var rel := BlobName(owner, random);
    assert rel[|owner'|] == '/';
    forall i | 0 <= i < |rel| && i != |owner|
      ensures rel[i] != '/'
    {
      if i < |owner| {
        assert rel[i] == owner[i];
      } else {
        assert rel[i] == (random + ".bin")[i - |owner| - 1];
      }
    }
    assert owner == rel[..|owner|] && owner' == rel[..|owner'|];
    assert random == rel[|owner| + 1..|rel| - 4] && random' == rel[|owner'| + 1..|rel| - 4];
  }

  /** A blob lies in the directory of its owner, right below it, and no part file has its name. */
  lemma NameUnderOwner(owner: string, random: string, other: string)
    requires PlainName(random)
    ensures owner + "/" <= BlobName(owner, random) && BlobName(owner, random) != PartName(other)
    ensures forall i :: |owner| < i < |BlobName(owner, random)| ==> BlobName(owner, random)[i] != '/'
  {
    var rel, rest := BlobName(owner, random), random + ".bin";
    assert rel == owner + "/" + rest;
    forall i | |owner| < i < |rel|
      ensures rel[i] != '/'
    {
      assert rel[i] == rest[i - |owner| - 1];
    }
    assert rel[|rel| - 1] == 'n' && PartName(other)[|PartName(other)| - 1] == 't';
  }

  // ---- where a path leads ----

  /** The position of the first slash, or the end. */
  function FirstSlash(s: string): (k: nat)
    ensures k <= |s| && (k < |s| ==> s[k] == '/') && forall i :: 0 <= i < k ==> s[i] != '/'
  {
    if s == "" || s[0] == '/' then 0 else 1 + FirstSlash(s[1..])
  }

  function Components(s: string): seq<string>
    decreases |s|
  {
    var k := FirstSlash(s);
    if k == |s| then [s] else [s[..k]] + Components(s[k + 1..])
  }

  /** How deep a path leads that starts `depth` directories below the root, unless it climbs above the root. */
  function Walk(path: seq<string>, depth: nat): Option<nat>
    decreases |path|
  {
    if path == [] then Some(depth)
    else if path[0] == "" || path[0] == "." then Walk(path[1..], depth)
    else if path[0] == ".." then (if depth == 0 then None else Walk(path[1..], depth - 1))
    else Walk(path[1..], depth + 1)
  }

  predicate HasDots(s: string) {
    exists i :: 0 <= i < |s| - 1 && s[i] == '.' && s[i + 1] == '.'
  }

  predicate OnlyDotsAndSlashes(s: string) {
    forall i :: 0 <= i < |s| ==> s[i] == '.' || s[i] == '/'
  }

  /** The path is relative and leads to something strictly below the root. */
  predicate Inside(rel: string) {
    rel != "" && rel[0] != '/' && var end := Walk(Components(rel), 0); end.Some? && 0 < end.value
  }

  lemma OneComponent(c: string)
    requires forall i :: 0 <= i < |c| ==> c[i] != '/'
    ensures OnlyDotsAndSlashes(c) <==> c == "" || c == "." || (OnlyDotsAndSlashes(c) && HasDots(c))
    ensures c == ".." ==> HasDots(c)
  {
    if OnlyDotsAndSlashes(c) && 2 <= |c| {
      assert c[0] == '.' && c[1] == '.';
    }
  }

  lemma SplitAt(s: string, k: nat)
    requires k < |s| && s[k] == '/'
    ensures HasDots(s[..k]) || HasDots(s[k + 1..]) ==> HasDots(s)
    ensures OnlyDotsAndSlashes(s) <==> OnlyDotsAndSlashes(s[..k]) && OnlyDotsAndSlashes(s[k + 1..])
  {
    var rest := s[k + 1..];
    forall i | 0 <= i < |rest|
      ensures rest[i] == s[k + 1 + i]
    {
    }
    if HasDots(rest) {
      var i :| 0 <= i < |rest| - 1 && rest[i] == '.' && rest[i + 1] == '.';
      assert s[k + 1 + i] == '.' && s[k + 1 + i + 1] == '.';
    }
    if OnlyDotsAndSlashes(s[..k]) && OnlyDotsAndSlashes(rest) {
      forall i | 0 <= i < |s|
        ensures s[i] == '.' || s[i] == '/'
      {
        if k < i {
          assert s[i] == rest[i - k - 1];
        } else if i < k {
          assert s[i] == s[..k][i];
        }
      }
    }
  }

  /** Without two dots in a row a path never climbs, and stays where it is only if it names nothing. */
  lemma {:induction false} WalksDown(s: string, depth: nat)
    requires !HasDots(s)
    ensures var end := Walk(Components(s), depth);
            end.Some? && depth <= end.value && (end.value == depth <==> OnlyDotsAndSlashes(s))
    decreases |s|
  {
    var k := FirstSlash(s);
    if k == |s| {
      OneComponent(s);
      assert [s][1..] == [];
    } else {
      SplitAt(s, k);
      OneComponent(s[..k]);
      var rest := Components(s[k + 1..]);
      assert Components(s)[0] == s[..k] && Components(s)[1..] == rest;
      WalksDown(s[k + 1..], depth);
      WalksDown(s[k + 1..], depth + 1);
    }
  }

  /** A path is accepted exactly when it leads below the root and has no two dots in a row; so none leads out. */
  lemma AcceptedIffInside(rel: string)
    ensures Resolve(rel).Ok? <==> Inside(rel) && !HasDots(rel)
  {
    if !HasDots(rel) {
      WalksDown(rel, 0);
    }
  }

  // ---- the directory ----

  function Size(f: File): (r: int)
    ensures r == |f.content|
  {
    |f.content|
  }

  /** The directory after a complete write. */
  function Published(files: map<string, File>, rel: string, now: int, content: Bytes): map<string, File> {
    files[rel := File(now, content)]
  }

  datatype SweepResult = SweepResult(files: nat, bytes: int)

  /** Old enough, referred to by no row, and not refused by the file system. */
  predicate Swept(f: File, path: string, known: set<string>, cutoff: int, stuck: set<string>) {
    f.mtime <= cutoff && path !in known && path !in stuck
  }

  /** The directory after a sweep. */
  function Remaining(files: map<string, File>, known: set<string>, cutoff: int, stuck: set<string>): map<string, File> {
    map p | p in files && !Swept(files[p], p, known, cutoff, stuck) :: files[p]
  }

  /** The part files after a sweep, given by the time of their last write. */
  function RemainingParts(parts: map<string, int>, cutoff: int): map<string, int> {
    map p | p in parts && cutoff < parts[p] :: parts[p]
  }

  /** That is what the sweep of a directory does with them: no row names a part file. */
  lemma PartRemains(parts: map<string, int>, rel: string, content: Bytes, known: set<string>, cutoff: int)
    requires rel in parts && PartName(rel) !in known
    ensures rel in RemainingParts(parts, cutoff)
            <==> !Swept(File(parts[rel], content), PartName(rel), known, cutoff, {})
  {
  }

  lemma RemainingPartsWithout(parts: map<string, int>, cutoff: int, p: string)
    requires p in parts && parts[p] <= cutoff
    ensures RemainingParts(parts - {p}, cutoff) == RemainingParts(parts, cutoff) && |parts - {p}| < |parts|
  {
    assert parts.Keys == (parts - {p}).Keys + {p};
  }

  /** What the sweep takes it may take one at a time. */
  lemma RemainingWithout(files: map<string, File>, known: set<string>, cutoff: int, stuck: set<string>, p: string)
    requires p in files && Swept(files[p], p, known, cutoff, stuck)
    ensures Remaining(files - {p}, known, cutoff, stuck) == Remaining(files, known, cutoff, stuck)
    ensures |files - {p}| < |files|
  {
    assert files.Keys == (files - {p}).Keys + {p};
  }

  class Dir {
    const checksum: Bytes -> string
    var files: map<string, File>
    ghost var taken: set<(string, string)>

    /** Every blob was written under the owner and the random part that its name shows. */
    ghost predicate Valid()
      reads this
    {
      forall owner, random ::
        PlainName(owner) && PlainName(random) && BlobName(owner, random) in files ==> (owner, random) in taken
    }

    constructor (checksum: Bytes -> string)
      ensures this.checksum == checksum && files == map[] && taken == {} && Valid()
    {
      this.checksum, files, taken := checksum, map[], {};
    }

    /**
      Stream `content` into a fresh `.part` file and rename it.  Either the
      complete blob appears under its name, with the size and checksum of what
      was read, or the directory is as it was.  With a random part that the owner
      has not had before, nothing that was there is touched.
     */
    method Write(owner: string, random: string, content: Bytes, now: int, fault: Fault)
        returns (r: Result<(string, int, string), BlobError>)
      modifies this
      ensures var rel := BlobName(owner, random);
              match r
              case Ok((path, size, sum)) =>
                && path == rel && size == |content| && sum == checksum(content)
                && files == Published(old(files), rel, now, content)
              case Err(_) => files == old(files)
      ensures r.Ok? <==> fault == NoFault && PartName(BlobName(owner, random)) !in old(files)
      ensures taken == old(taken) + (if r.Ok? then {(owner, random)} else {})
      ensures old(Valid()) ==> Valid()
      ensures old(Valid()) && PlainName(owner) && PlainName(random) && (owner, random) !in old(taken) ==>
                forall p :: p in old(files) ==> p in files && files[p] == old(files)[p]
    {
      var rel := BlobName(owner, random);
      var part := PartName(rel);
      if fault == BeforeOpen {
        return Err(IOError);
      }
      if part in files {
        return Err(PartExists);
      }
      ghost var before := files;
      files := files[part := File(now, [])];
      var copied: Bytes := [];
      var failed := false;
      while |copied| < |content| && !failed
        invariant |copied| <= |content| && copied == content[..|copied|]
        invariant files == before[part := File(now, copied)] && taken == old(taken)
        invariant failed ==> fault != NoFault
        decreases |content| - |copied|, !failed
      {
        if fault == WhileCopying(|copied|) {
          failed := true;
        } else {
          copied := content[..|copied| + 1];
          files := files[part := File(now, copied)];
        }
      }
      if fault != NoFault {
        files := files - {part};
        assert files == before;
        return Err(IOError);
      }
      assert copied == content;
      files := (files - {part})[rel := files[part]];
      assert files == before[rel := File(now, content)];
      taken := taken + {(owner, random)};
      forall o, x | PlainName(o) && PlainName(x) && BlobName(o, x) == rel
        ensures (o, x) == (owner, random)
      {
        NamesDiffer(o, x, owner, random);
      }
      r := Ok((rel, |copied|, checksum(copied)));
    }

    /**
      Succeeds exactly when the path is one of the directory's and the file system
      does not refuse; that file is gone then, whether or not it was there.
     */
    method Remove(rel: string, refused: bool) returns (r: Result<(), BlobError>)
      modifies this
      ensures Escapes(rel) ==> r == Err(BadPath)
      ensures !Escapes(rel) ==> (r == Ok(()) <==> rel !in old(files) || !refused)
      ensures files == if r.Ok? then old(files) - {rel} else old(files)
      ensures taken == old(taken) && (old(Valid()) ==> Valid())
    {
      var path := Resolve(rel);
      if path.Err? {
        return Err(path.error);
      }
      if path.value in files {
        if refused {
          return Err(IOError);
        }
        files := files - {path.value};
      }
      r := Ok(());
    }

    /**
      Remove the files at least `minAge` old that `known` does not refer to.
      Exactly those are gone afterwards, and the result counts them and their bytes.
     */
    method Sweep(known: set<string>, now: int, minAge: int, stuck: set<string>) returns (res: SweepResult)
      modifies this
      ensures files == Remaining(old(files), known, now - minAge, stuck)
      ensures forall p :: p in files <==>
                p in old(files) && (now - minAge < old(files)[p].mtime || p in known || p in stuck)
      ensures taken == old(taken) && (old(Valid()) ==> Valid())
      ensures res.files == |old(files)| - |files|
      ensures res.bytes == Sum(old(files), Size) - Sum(files, Size)
    {
      res := SweepResult(0, 0);
      var cutoff := now - minAge;
      var left := files.Keys;
      while left != {}
        invariant left <= files.Keys
        invariant forall p :: p in files <==>
                    p in old(files) && (p in left || !Swept(old(files)[p], p, known, cutoff, stuck))
        invariant forall p :: p in files ==> files[p] == old(files)[p]
        invariant taken == old(taken)
        invariant res.files == |old(files)| - |files|
        invariant res.bytes == Sum(old(files), Size) - Sum(files, Size)
        decreases |left|
      {
        var p :| p in left;
        left := left - {p};
        var info := files[p];
        if info.mtime <= cutoff && p !in known && p !in stuck {
          SumWithout(files, Size, p);
          files := files - {p};
          res := SweepResult(res.files + 1, res.bytes + Size(info));
        }
      }
      assert files == Remaining(old(files), known, cutoff, stuck);
    }
  }
}
