/** Signed artifact manifests: structural admission, building, and verification of one delivery. */
module Manifest {
  import opened Core
  import opened Wire

  type Bytes = seq<nat>

  /** Hashes are injective, so a hash is modelled by the bytes it is taken of. */
  type Hash = Bytes

  type PublicKey = nat

  datatype Entry = Entry(path: string, sha256: Hash, size: int)

  datatype Body = Body(task: Uuid, attempt: int, node: Uuid, keyEpoch: int, deliverables: seq<Entry>)

  /** A signature is valid for exactly the key and the manifest it was made with. */
  datatype Signature = Signature(key: PublicKey, over: Body) | Garbage

  datatype Signed = Signed(ed25519: bool, manifest: Body, sig: Signature)

  datatype File = File(path: string, bytes: Bytes)

  /** What String.prototype.trim removes: white space and line terminators. */
  predicate White(c: char) {
    || c in [' ', '\t', '\n', '\r', '\U{0B}', '\U{0C}', '\U{A0}', '\U{FEFF}']
    || c in ['\U{1680}', '\U{2028}', '\U{2029}', '\U{202F}', '\U{205F}', '\U{3000}']
    || '\U{2000}' <= c <= '\U{200A}'
  }

  predicate Blank(s: string) {
    forall i :: 0 <= i < |s| ==> White(s[i])
  }

  // ---- Structural admission of an untrusted manifest ----

  datatype RawEntry = RawEntry(path: Field<string>, sha256: Field<Hash>, size: Field<int>)

  datatype Raw = Raw(ed25519: bool, sig: Field<Signature>, task: Field<Uuid>, node: Field<Uuid>, attempt: Field<int>,
                     keyEpoch: Field<int>, deliverables: Field<seq<RawEntry>>)

  predicate ValidEntry(d: RawEntry) {
    d.path.Val? && !Blank(d.path.v) && d.sha256.Val? && d.size.Val? && Nonnegative(d.size.v)
  }

  predicate DistinctPaths(ds: seq<RawEntry>) {
    forall i, j :: 0 <= i < j < |ds| && ds[i].path.Val? && ds[j].path.Val? ==> ds[i].path.v != ds[j].path.v
  }

  predicate ValidRaw(m: Raw) {
    && m.ed25519 && m.sig.Val? && m.task.Val? && m.node.Val? && PositiveField(m.attempt) && PositiveField(m.keyEpoch)
    && m.deliverables.Val?
    && (forall i :: 0 <= i < |m.deliverables.v| ==> ValidEntry(m.deliverables.v[i]))
    && DistinctPaths(m.deliverables.v)
  }

  /** A typed manifest as the untrusted value it is checked as. */
  function RawOf(s: Signed): Raw {
    var ds := s.manifest.deliverables;
    Raw(s.ed25519, Val(s.sig), Val(s.manifest.task), Val(s.manifest.node), Val(s.manifest.attempt),
        Val(s.manifest.keyEpoch), Val(seq(|ds|, i requires 0 <= i < |ds| =>
          RawEntry(Val(ds[i].path), Val(ds[i].sha256), Val(ds[i].size)))))
  }

  /** The path occurs among the first i entries. */
  predicate Used(ds: seq<RawEntry>, i: nat, p: string)
    requires i <= |ds|
  {
    exists k :: 0 <= k < i && ds[k].path == Val(p)
  }

  /** One pass with the set of paths seen so far. */
  method ValidSignedManifest(m: Raw) returns (ok: bool)
    ensures ok == ValidRaw(m)
  {
    if !m.ed25519 || !m.sig.Val? || !m.task.Val? || !m.node.Val? || !PositiveField(m.attempt) ||
       !PositiveField(m.keyEpoch) || !m.deliverables.Val? {
      return false;
    }
    var ds := m.deliverables.v;
    var paths: set<string> := {};
    for i := 0 to |ds|
      invariant forall k :: 0 <= k < i ==> ValidEntry(ds[k])
      invariant DistinctPaths(ds[..i])
      invariant forall p :: p in paths <==> Used(ds, i, p)
    {
      var d := ds[i];
      if !d.path.Val? || Blank(d.path.v) || d.path.v in paths || !d.sha256.Val? || !d.size.Val? ||
          !Nonnegative(d.size.v) {
        return false;
      }
      paths := paths + {d.path.v};
    }
    assert ds[..|ds|] == ds;
    return true;
  }

  // ---- Building ----

  predicate Sorted(es: seq<Entry>) {
    forall i, j :: 0 <= i <= j < |es| ==> LexLe(es[i].path, es[j].path)
  }

  /** Order of strings by code unit. */
  predicate LexLe(a: string, b: string) {
    a == "" || (b != "" && (a[0] < b[0] || (a[0] == b[0] && LexLe(a[1..], b[1..]))))
  }

  function EntryOf(f: File): Entry {
    Entry(f.path, f.bytes, |f.bytes|)
  }

  function Insert(es: seq<Entry>, e: Entry): seq<Entry> {
    if es == [] then [e]
    else if LexLe(es[|es| - 1].path, e.path) then es + [e]
    else Insert(es[..|es| - 1], e) + [es[|es| - 1]]
  }

  /** The deliverables in path order. */
  function Build(files: seq<File>): seq<Entry> {
    if files == [] then [] else Insert(Build(files[..|files| - 1]), EntryOf(files[|files| - 1]))
  }

  lemma {:induction false} InsertKeepsAll(es: seq<Entry>, e: Entry)
    ensures multiset(Insert(es, e)) == multiset(es) + multiset{e}
    decreases |es|
  {
    if es != [] {
      assert es == es[..|es| - 1] + [es[|es| - 1]];
      InsertKeepsAll(es[..|es| - 1], e);
    }
  }

  function Entries(files: seq<File>): seq<Entry> {
    seq(|files|, i requires 0 <= i < |files| => EntryOf(files[i]))
  }

  lemma EntriesSnoc(files: seq<File>)
    requires files != []
    ensures Entries(files) == Entries(files[..|files| - 1]) + [EntryOf(files[|files| - 1])]
  {
  }

  /** Sorting loses and invents nothing. */
  lemma {:induction false} BuildIsPermutation(files: seq<File>)
    ensures multiset(Build(files)) == multiset(Entries(files))
    decreases |files|
  {
    if files != [] {
      BuildIsPermutation(files[..|files| - 1]);
      InsertKeepsAll(Build(files[..|files| - 1]), EntryOf(files[|files| - 1]));
      EntriesSnoc(files);
    }
  }

  lemma {:induction false} LexTotal(a: string, b: string)
    ensures LexLe(a, b) || LexLe(b, a)
  {
    if a != "" && b != "" && a[0] == b[0] {
      LexTotal(a[1..], b[1..]);
    }
  }

  lemma {:induction false} LexTrans(a: string, b: string, c: string)
    requires LexLe(a, b) && LexLe(b, c)
    ensures LexLe(a, c)
  {
    if a != "" && a[0] == b[0] && b[0] == c[0] {
      LexTrans(a[1..], b[1..], c[1..]);
    }
  }

  lemma {:induction false} LexReflexive(a: string)
    ensures LexLe(a, a)
  {
    if a != "" {
      LexReflexive(a[1..]);
    }
  }

  lemma {:induction false} InsertSorts(es: seq<Entry>, e: Entry)
    requires Sorted(es)
    ensures Sorted(Insert(es, e)) && |Insert(es, e)| == |es| + 1
    ensures forall x :: x in Insert(es, e) ==> x in es || x == e
    decreases |es|
  {
    LexReflexive(e.path);
    if es != [] {
      var front, last := es[..|es| - 1], es[|es| - 1];
      if LexLe(last.path, e.path) {
        forall i | 0 <= i < |es| ensures LexLe(es[i].path, e.path) {
          LexTrans(es[i].path, last.path, e.path);
        }
      } else {
        LexTotal(last.path, e.path);
        InsertSorts(front, e);
        var ins := Insert(front, e);
        forall i | 0 <= i < |ins| ensures LexLe(ins[i].path, last.path) {
          assert ins[i] in ins;
          if ins[i] != e {
            var k :| 0 <= k < |front| && front[k] == ins[i];
            assert es[k] == ins[i];
          }
        }
        LexReflexive(last.path);
      }
    }
  }

  lemma {:induction false} BuildSorts(files: seq<File>)
    ensures Sorted(Build(files)) && |Build(files)| == |files|
    decreases |files|
  {
    if files != [] {
      BuildSorts(files[..|files| - 1]);
      InsertSorts(Build(files[..|files| - 1]), EntryOf(files[|files| - 1]));
    }
  }

  function Sign(b: Body, key: PublicKey): Signed {
    Signed(true, b, Signature(key, b))
  }

  // ---- Verification of one delivery ----

  predicate VerifySignature(s: Signed, pub: PublicKey) {
    s.ed25519 && s.sig == Signature(pub, s.manifest)
  }

  /** The bytes collected under a path; the last file of that path counts. */
  function Collected(files: seq<File>, path: string): Option<Bytes> {
    if files == [] then None
    else if files[|files| - 1].path == path then Some(files[|files| - 1].bytes)
    else Collected(files[..|files| - 1], path)
  }

  predicate Arrived(files: seq<File>, d: Entry) {
    Collected(files, d.path).Some? && |Collected(files, d.path).value| == d.size &&
        Collected(files, d.path).value == d.sha256
  }

  predicate Lists(b: Body, path: string) {
    exists i :: 0 <= i < |b.deliverables| && b.deliverables[i].path == path
  }

  function DeclaredPaths(c: Contract): seq<Option<string>> {
    if c.Declared? then c.paths else []
  }

  /** Everything a lead checks before it accepts a delivery. */
  predicate Verified(s: Signed, pub: PublicKey, task: Uuid, attempt: int, from: Uuid, epoch: int, files: seq<File>,
                     c: Contract) {
    && ValidRaw(RawOf(s)) && !c.BadContract?
    && s.manifest.task == task && s.manifest.attempt == attempt
    && s.manifest.node == from && s.manifest.keyEpoch == epoch
    && VerifySignature(s, pub)
    && (forall i :: 0 <= i < |s.manifest.deliverables| ==> Arrived(files, s.manifest.deliverables[i]))
    && (forall i :: 0 <= i < |DeclaredPaths(c)| ==>
          DeclaredPaths(c)[i].Some? && Lists(s.manifest, DeclaredPaths(c)[i].value))
  }

  method VerifyDelivery(s: Signed, pub: PublicKey, task: Uuid, attempt: int, from: Uuid, epoch: int,
                        files: seq<File>, c: Contract) returns (ok: bool)
    ensures ok == Verified(s, pub, task, attempt, from, epoch, files, c)
  {
    var m := s.manifest;
    var admitted := ValidSignedManifest(RawOf(s));
    if !admitted || c.BadContract? || m.task != task || m.attempt != attempt || m.node != from || m.keyEpoch != epoch ||
       !VerifySignature(s, pub) {
      return false;
    }
    for i := 0 to |m.deliverables|
      invariant forall k :: 0 <= k < i ==> Arrived(files, m.deliverables[k])
    {
      var bytes := Collected(files, m.deliverables[i].path);
      if bytes.None? || |bytes.value| != m.deliverables[i].size || bytes.value != m.deliverables[i].sha256 {
        return false;
      }
    }
    var listed := set i | 0 <= i < |m.deliverables| :: m.deliverables[i].path;
    var paths := DeclaredPaths(c);
    for i := 0 to |paths|
      invariant forall k :: 0 <= k < i ==> paths[k].Some? && Lists(m, paths[k].value)
    {
      if paths[i].None? || paths[i].value !in listed {
        return false;
      }
    }
    return true;
  }

  lemma {:induction false} CollectedDistinct(files: seq<File>, k: nat)
    requires k < |files| && forall i, j :: 0 <= i < j < |files| ==> files[i].path != files[j].path
    ensures Collected(files, files[k].path) == Some(files[k].bytes)
    decreases |files|
  {
    if k < |files| - 1 {
      CollectedDistinct(files[..|files| - 1], k);
    }
  }

  // ---- The round trip ----

  predicate DistinctFiles(files: seq<File>) {
    forall i, j :: 0 <= i < j < |files| ==> files[i].path != files[j].path
  }

  predicate DistinctEntries(es: seq<Entry>) {
    forall i, j :: 0 <= i < j < |es| ==> es[i].path != es[j].path
  }

  predicate Fresh(es: seq<Entry>, path: string) {
    forall i :: 0 <= i < |es| ==> es[i].path != path
  }

  lemma SnocDistinct(es: seq<Entry>, e: Entry)
    ensures DistinctEntries(es + [e]) <==> DistinctEntries(es) && Fresh(es, e.path)
  {
    var all := es + [e];
    if DistinctEntries(all) {
      forall i, j | 0 <= i < j < |es| ensures es[i].path != es[j].path {
        assert all[i] == es[i] && all[j] == es[j];
      }
      forall i | 0 <= i < |es| ensures es[i].path != e.path {
        assert all[i] == es[i] && all[|es|] == e;
      }
    }
  }

  lemma SnocFresh(es: seq<Entry>, e: Entry, path: string)
    ensures Fresh(es + [e], path) <==> Fresh(es, path) && e.path != path
  {
    var all := es + [e];
    if Fresh(all, path) {
      assert all[|es|] == e;
      forall i | 0 <= i < |es| ensures es[i].path != path {
        assert all[i] == es[i];
      }
    }
  }

  /** Insertion looks at the same paths as appending. */
  lemma {:induction false} InsertDistinct(es: seq<Entry>, e: Entry, path: string)
    ensures DistinctEntries(Insert(es, e)) <==> DistinctEntries(es) && Fresh(es, e.path)
    ensures Fresh(Insert(es, e), path) <==> Fresh(es, path) && e.path != path
    decreases |es|
  {
    SnocDistinct(es, e);
    SnocFresh(es, e, path);
    if es == [] {
      assert es + [e] == [e];
    } else if !LexLe(es[|es| - 1].path, e.path) {
      var front, last := es[..|es| - 1], es[|es| - 1];
      assert es == front + [last];
      InsertDistinct(front, e, path);
      InsertDistinct(front, e, last.path);
      SnocDistinct(Insert(front, e), last);
      SnocDistinct(front, last);
      SnocFresh(Insert(front, e), last, path);
      SnocFresh(front, last, path);
      SnocFresh(front, last, e.path);
    }
  }

  /** The built deliverables have distinct paths exactly when the files do. */
  lemma {:induction false} BuildDistinctIff(files: seq<File>, path: string)
    ensures DistinctEntries(Build(files)) <==> DistinctFiles(files)
    ensures Fresh(Build(files), path) <==> forall i :: 0 <= i < |files| ==> files[i].path != path
    decreases |files|
  {
    if files != [] {
      var front, last := files[..|files| - 1], files[|files| - 1];
      assert files == front + [last];
      BuildDistinctIff(front, path);
      BuildDistinctIff(front, last.path);
      InsertDistinct(Build(front), EntryOf(last), path);
      FilesSnoc(front, last, path);
    }
  }

  lemma FilesSnoc(front: seq<File>, last: File, path: string)
    ensures DistinctFiles(front + [last]) <==>
              DistinctFiles(front) && forall i :: 0 <= i < |front| ==> front[i].path != last.path
    ensures (forall i :: 0 <= i < |front + [last]| ==> (front + [last])[i].path != path) <==>
              last.path != path && forall i :: 0 <= i < |front| ==> front[i].path != path
  {
    var all := front + [last];
    assert all[|front|] == last;
    assert forall i :: 0 <= i < |front| ==> all[i] == front[i];
  }

  /** Admission sees the paths, sizes and numbers of a typed manifest. */
  lemma AdmittedIff(s: Signed)
    ensures ValidRaw(RawOf(s)) <==>
              && s.ed25519 && Positive(s.manifest.attempt) && Positive(s.manifest.keyEpoch)
              && DistinctEntries(s.manifest.deliverables)
              && forall e :: e in s.manifest.deliverables ==> !Blank(e.path) && Nonnegative(e.size)
  {
    var ds, raw := s.manifest.deliverables, RawOf(s).deliverables.v;
    assert forall i :: 0 <= i < |ds| ==> ds[i] in ds;
    if ValidRaw(RawOf(s)) {
      forall i, j | 0 <= i < j < |ds| ensures ds[i].path != ds[j].path {
        assert raw[i].path.v == ds[i].path && raw[j].path.v == ds[j].path;
      }
      forall e | e in ds ensures !Blank(e.path) && Nonnegative(e.size) {
        var i :| 0 <= i < |ds| && ds[i] == e;
        assert ValidEntry(raw[i]);
      }
    }
  }

  /** The files an executor may deliver: distinct nonblank paths, lengths that are safe integers. */
  predicate Deliverable(files: seq<File>) {
    DistinctFiles(files) && forall f :: f in files ==> !Blank(f.path) && Nonnegative(|f.bytes|)
  }

  predicate Has(files: seq<File>, path: string) {
    exists k :: 0 <= k < |files| && files[k].path == path
  }

  predicate Asked(c: Contract, files: seq<File>) {
    !c.BadContract? && forall i :: 0 <= i < |DeclaredPaths(c)| ==>
      DeclaredPaths(c)[i].Some? && Has(files, DeclaredPaths(c)[i].value)
  }

  /** The entries of a built manifest are those of the files. */
  lemma BuildMembers(files: seq<File>)
    ensures forall e :: e in Build(files) <==> e in Entries(files)
    ensures forall e :: e in Entries(files) <==> exists k :: 0 <= k < |files| && EntryOf(files[k]) == e
  {
    BuildIsPermutation(files);
    forall e ensures e in Build(files) <==> e in Entries(files) {
      assert e in Build(files) <==> e in multiset(Build(files));
    }
    forall k | 0 <= k < |files| ensures EntryOf(files[k]) in Entries(files) {
      assert Entries(files)[k] == EntryOf(files[k]);
    }
  }

  lemma ListsIff(files: seq<File>, b: Body, path: string)
    requires b.deliverables == Build(files)
    ensures Lists(b, path) <==> Has(files, path)
  {
    BuildMembers(files);
    if Lists(b, path) {
      var i :| 0 <= i < |b.deliverables| && b.deliverables[i].path == path;
      assert b.deliverables[i] in Build(files);
    }
    if Has(files, path) {
      var k :| 0 <= k < |files| && files[k].path == path;
      assert EntryOf(files[k]) in Entries(files);
      var i :| 0 <= i < |b.deliverables| && b.deliverables[i] == EntryOf(files[k]);
    }
  }

  lemma BuiltAdmittedIff(files: seq<File>, key: PublicKey, task: Uuid, attempt: int, node: Uuid, epoch: int)
    ensures ValidRaw(RawOf(Sign(Body(task, attempt, node, epoch, Build(files)), key))) <==>
              Positive(attempt) && Positive(epoch) && Deliverable(files)
  {
    AdmittedIff(Sign(Body(task, attempt, node, epoch, Build(files)), key));
    BuildMembers(files);
    BuildDistinctIff(files, "");
    if forall e :: e in Build(files) ==> !Blank(e.path) && Nonnegative(e.size) {
      forall f | f in files ensures !Blank(f.path) && Nonnegative(|f.bytes|) {
        var k :| 0 <= k < |files| && files[k] == f;
        assert EntryOf(f) in Entries(files);
      }
    }
  }

  /**
   * The round trip: what an executor builds and signs over its files, the lead verifies over the same files,
   * exactly when the numbers are positive, the paths distinct and not blank, and the contract names paths
   * among them.
   */
  lemma {:induction false} SignedDeliveryVerifiesIff(files: seq<File>, key: PublicKey, task: Uuid, attempt: int,
                                                     node: Uuid, epoch: int, c: Contract)
    ensures Verified(Sign(Body(task, attempt, node, epoch, Build(files)), key), key, task, attempt, node, epoch, files,
            c) <==>
              Positive(attempt) && Positive(epoch) && Deliverable(files) && Asked(c, files)
  {
    var b := Body(task, attempt, node, epoch, Build(files));
    BuiltAdmittedIff(files, key, task, attempt, node, epoch);
    forall i | 0 <= i < |DeclaredPaths(c)| && DeclaredPaths(c)[i].Some?
      ensures Lists(b, DeclaredPaths(c)[i].value) <==> Has(files, DeclaredPaths(c)[i].value)
    {
      ListsIff(files, b, DeclaredPaths(c)[i].value);
    }
    if Deliverable(files) {
      BuildMembers(files);
      forall i | 0 <= i < |b.deliverables| ensures Arrived(files, b.deliverables[i]) {
        assert b.deliverables[i] in Build(files);
        var k :| 0 <= k < |files| && EntryOf(files[k]) == b.deliverables[i];
        CollectedDistinct(files, k);
      }
    }
  }

  /** What a verified delivery means for its contract: every declared path arrived, with the bytes that were signed. */
  lemma ContractDelivered(s: Signed, pub: PublicKey, task: Uuid, attempt: int, from: Uuid, epoch: int,
                          files: seq<File>, c: Contract, path: string)
    requires Verified(s, pub, task, attempt, from, epoch, files, c) && Some(path) in DeclaredPaths(c)
    ensures Collected(files, path).Some?
    ensures EntryOf(File(path, Collected(files, path).value)) in s.manifest.deliverables
  {
    var i :| 0 <= i < |DeclaredPaths(c)| && DeclaredPaths(c)[i] == Some(path);
    assert Lists(s.manifest, path);
    var k :| 0 <= k < |s.manifest.deliverables| && s.manifest.deliverables[k].path == path;
    assert Arrived(files, s.manifest.deliverables[k]);
    assert s.manifest.deliverables[k] in s.manifest.deliverables;
  }
}
