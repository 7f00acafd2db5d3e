/** The license sections of a package page: license records read from the
    data store become display records, each carrying the anchor that the
    licenses page uses to link to that license's section. */
module Frontend {
  import opened Wrappers
  import opened UrlEscape

  /** A full license record from the data store (Go's license.License).
      Only the file path is read here; `contents` stands for the rest of
      the record, which is passed through untouched. */
  datatype DbLicense = DbLicense(filePath: GoString, contents: GoString)

  /** A metadata record from the data store (Go's license.Metadata): the
      license types detected in one file. */
  datatype DbMetadata = DbMetadata(filePath: GoString, types: seq<GoString>)

  /** One license section: the record itself and its anchor. */
  datatype License = License(license: DbLicense, anchor: GoString)

  /** License information for a package or module. */
  datatype LicensesDetails = LicensesDetails(licenses: seq<License>)

  /** One (type, anchor) entry of the package header. */
  datatype LicenseMetadata = LicenseMetadata(typ: GoString, anchor: GoString)

  /** The package version whose licenses are asked for. */
  datatype VersionedPackage = VersionedPackage(path: GoString, modulePath: GoString, version: GoString)

  /** The data store's license query: given a package path, its module path
      and a version, the package's license records or an error. */
  type DataSource<E> = (GoString, GoString, GoString) -> Result<seq<DbLicense>, E>

  // ---------------------------------------------------------------------
  // Anchors

  /** The anchor of the license stored at filePath: the path, query-escaped.
      It never contains a raw space or `/`. */
  function Anchor(filePath: GoString): (r: GoString)
    ensures forall k :: 0 <= k < |r| ==> r[k] != Space && r[k] != Slash && IsQuerySafe(r[k])
  {
    QueryEscape(filePath)
  }

  /** Two files get the same anchor exactly when they have the same path. */
  lemma AnchorInjective(p1: GoString, p2: GoString)
    ensures Anchor(p1) == Anchor(p2) <==> p1 == p2
  {
    QueryEscapeInjective(p1, p2);
  }

  // ---------------------------------------------------------------------
  // Full license records

  /** The license sections for records ls: one per record, in the same
      order, holding the record unchanged and the anchor of its path. */
  function Licenses(ls: seq<DbLicense>): (r: seq<License>)
    ensures |r| == |ls|
    ensures forall i :: 0 <= i < |ls| ==> r[i].license == ls[i] && r[i].anchor == Anchor(ls[i].filePath)
  {
    if ls == [] then [] else [License(ls[0], Anchor(ls[0].filePath))] + Licenses(ls[1..])
  }

  /** Go's transformLicenses: a fresh array the length of the input, filled
      by index. */
  method TransformLicenses(dbLicenses: seq<DbLicense>) returns (licenses: array<License>)
    ensures fresh(licenses)
    ensures licenses[..] == Licenses(dbLicenses)
  {
    licenses := new License[|dbLicenses|];
    for i := 0 to |dbLicenses|
      invariant forall k :: 0 <= k < i ==> licenses[k] == License(dbLicenses[k], Anchor(dbLicenses[k].filePath))
    {
      var l := dbLicenses[i];
      licenses[i] := License(l, Anchor(l.filePath));
    }
  }

  /** Two sections of one page share an anchor exactly when their records
      come from the same file. */
  lemma LicenseAnchorsIdentifyFiles(ls: seq<DbLicense>, i: nat, j: nat)
    requires i < |ls| && j < |ls|
    ensures Licenses(ls)[i].anchor == Licenses(ls)[j].anchor <==> ls[i].filePath == ls[j].filePath
  {
    AnchorInjective(ls[i].filePath, ls[j].filePath);
  }

  // ---------------------------------------------------------------------
  // Metadata records

  /** One entry per type, in the order of types, all with the given anchor. */
  function Tagged(types: seq<GoString>, anchor: GoString): (r: seq<LicenseMetadata>)
    ensures |r| == |types|
    ensures forall j :: 0 <= j < |types| ==> r[j] == LicenseMetadata(types[j], anchor)
  {
    if types == [] then [] else [LicenseMetadata(types[0], anchor)] + Tagged(types[1..], anchor)
  }

  /** The number of types over all records. */
  function TypeCount(ms: seq<DbMetadata>): nat
  {
    if ms == [] then 0 else |ms[0].types| + TypeCount(ms[1..])
  }

  /** The header entries for records ms: for each record in turn, one entry
      per type it lists, all under that record's anchor. There are as many
      entries as types over all records. */
  function Metadata(ms: seq<DbMetadata>): (r: seq<LicenseMetadata>)
    ensures |r| == TypeCount(ms)
  {
    if ms == [] then [] else Tagged(ms[0].types, Anchor(ms[0].filePath)) + Metadata(ms[1..])
  }

  /** Go's transformLicenseMetadata: the entries appended one at a time, in
      nested loops over the records and their types. */
  method TransformLicenseMetadata(dbLicenses: seq<DbMetadata>) returns (mds: seq<LicenseMetadata>)
    ensures mds == Metadata(dbLicenses)
  {
    mds := [];
    for i := 0 to |dbLicenses|
      invariant mds == Metadata(dbLicenses[..i])
    {
      var l := dbLicenses[i];
      var anchor := Anchor(l.filePath);
      ghost var before := mds;
      for j := 0 to |l.types|
        invariant mds == before + Tagged(l.types[..j], anchor)
      {
        TaggedPrefixStep(l.types, j, anchor);
        mds := mds + [LicenseMetadata(l.types[j], anchor)];
      }
      assert l.types[..|l.types|] == l.types;
      MetadataPrefixStep(dbLicenses, i);
    }
    assert dbLicenses[..|dbLicenses|] == dbLicenses;
  }

  /** Extending the types read so far by one adds that type's entry at the end. */
  lemma TaggedPrefixStep(types: seq<GoString>, j: nat, anchor: GoString)
    requires j < |types|
    ensures Tagged(types[..j + 1], anchor) == Tagged(types[..j], anchor) + [LicenseMetadata(types[j], anchor)]
  {
  }

  /** Extending the records read so far by one adds that record's entries at the end. */
  lemma MetadataPrefixStep(ms: seq<DbMetadata>, i: nat)
    requires i < |ms|
    ensures Metadata(ms[..i + 1]) == Metadata(ms[..i]) + Tagged(ms[i].types, Anchor(ms[i].filePath))
  {
    assert ms[..i + 1] == ms[..i] + [ms[i]];
    MetadataAppend(ms[..i], [ms[i]]);
    assert Metadata([ms[i]]) == Tagged(ms[i].types, Anchor(ms[i].filePath)) + Metadata([]);
  }

  /** Metadata distributes over concatenation of the record list. */
  lemma {:induction false} MetadataAppend(a: seq<DbMetadata>, b: seq<DbMetadata>)
    ensures Metadata(a + b) == Metadata(a) + Metadata(b)
  {
    if a == [] {
      assert a + b == b;
    } else {
      var head := Tagged(a[0].types, Anchor(a[0].filePath));
      assert (a + b)[0] == a[0] && (a + b)[1..] == a[1..] + b;
      MetadataAppend(a[1..], b);
      ConcatAssociative(head, Metadata(a[1..]), Metadata(b));
    }
  }

  lemma ConcatAssociative<T>(x: seq<T>, y: seq<T>, z: seq<T>)
    ensures x + (y + z) == (x + y) + z
  {
  }

  /** A record that lists no types contributes no entries, wherever it stands. */
  lemma UntypedRecordAddsNothing(a: seq<DbMetadata>, m: DbMetadata, b: seq<DbMetadata>)
    requires m.types == []
    ensures Metadata(a + [m] + b) == Metadata(a + b)
  {
    assert Metadata([m]) == [] + Metadata([]);
    calc {
      Metadata(a + [m] + b);
      { MetadataAppend(a + [m], b); }
      Metadata(a + [m]) + Metadata(b);
      { MetadataAppend(a, [m]); assert Metadata(a) + [] == Metadata(a); }
      Metadata(a) + Metadata(b);
      { MetadataAppend(a, b); }
      Metadata(a + b);
    }
  }

  /** Type j of record i is the entry at position (types of records before i)
      + j, under record i's anchor: records keep their order, and so do the
      types within a record. */
  lemma {:induction false} MetadataAt(ms: seq<DbMetadata>, i: nat, j: nat)
    requires i < |ms| && j < |ms[i].types|
    ensures TypeCount(ms[..i]) + j < |Metadata(ms)|
    ensures Metadata(ms)[TypeCount(ms[..i]) + j] == LicenseMetadata(ms[i].types[j], Anchor(ms[i].filePath))
  {
    if i == 0 {
      assert ms[..0] == [];
    } else {
      MetadataAt(ms[1..], i - 1, j);
      assert ms[..i][0] == ms[0] && ms[..i][1..] == ms[1..][..i - 1];
    }
  }

  /** Every entry comes from some record: its type is one of that record's
      types and its anchor is that record's anchor. */
  lemma {:induction false} MetadataOrigin(ms: seq<DbMetadata>, k: nat)
    requires k < |Metadata(ms)|
    ensures exists i, j :: 0 <= i < |ms| && 0 <= j < |ms[i].types| &&
              Metadata(ms)[k] == LicenseMetadata(ms[i].types[j], Anchor(ms[i].filePath))
  {
    var n := |ms[0].types|;
    if k < n {
      assert Metadata(ms)[k] == LicenseMetadata(ms[0].types[k], Anchor(ms[0].filePath));
    } else {
      MetadataOrigin(ms[1..], k - n);
      var i, j :| 0 <= i < |ms[1..]| && 0 <= j < |ms[1..][i].types| &&
                  Metadata(ms[1..])[k - n] == LicenseMetadata(ms[1..][i].types[j], Anchor(ms[1..][i].filePath));
      assert Metadata(ms)[k] == LicenseMetadata(ms[i + 1].types[j], Anchor(ms[i + 1].filePath));
    }
  }

  /** A file with one type followed by a file with two: three entries, the
      last two sharing the second file's anchor. */
  lemma MetadataExample(p1: GoString, p2: GoString, mit: GoString, bsd: GoString)
    ensures Metadata([DbMetadata(p1, [mit]), DbMetadata(p2, [bsd, mit])]) ==
            [LicenseMetadata(mit, Anchor(p1)), LicenseMetadata(bsd, Anchor(p2)), LicenseMetadata(mit, Anchor(p2))]
  {
  }

  // ---------------------------------------------------------------------
  // Fetching

  /** Go's fetchPackageLicensesDetails: ask the data source for the package's
      licenses; hand its error back unchanged, or else one license section
      per record returned, in the same order. */
  function FetchPackageLicensesDetails<E>(ds: DataSource<E>, pkg: VersionedPackage): (r: Result<LicensesDetails, E>)
    ensures var fetched := ds(pkg.path, pkg.modulePath, pkg.version);
      && (fetched.Err? <==> r.Err?)
      && (fetched.Err? ==> r.error == fetched.error)
      && (fetched.Ok? ==>
            && |r.value.licenses| == |fetched.value|
            && forall i :: 0 <= i < |fetched.value| ==>
                 r.value.licenses[i] == License(fetched.value[i], Anchor(fetched.value[i].filePath)))
  {
    match ds(pkg.path, pkg.modulePath, pkg.version)
    case Err(err) => Err(err)
    case Ok(dsLicenses) => Ok(LicensesDetails(Licenses(dsLicenses)))
  }
}
