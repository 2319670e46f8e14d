/** The table of ZooKeeper versions a test may start, each with the class path
    that runs it. The table is an ordered map from version string to class
    path, kept as its entries in ascending version order, so the newest
    version is the last entry. */
module PackageRegistry {
  import opened Wrappers
  import opened Text
  import Classpath

  /** One registration: a version and the class path that runs it. */
  datatype Entry = Entry(version: string, packages: Classpath.Classpath)

  /** Strictly ascending versions: the order of `std::map`'s iteration, and
      no version twice. */
  predicate Sorted(es: seq<Entry>)
  {
    forall i, j :: 0 <= i < j < |es| ==> StringLess(es[i].version, es[j].version)
  }

  /** The map the entries stand for. */
  function AsMap(es: seq<Entry>): map<string, Classpath.Classpath>
  {
    if es == [] then map[] else AsMap(es[1..])[es[0].version := es[0].packages]
  }

  /** A version is in the map exactly when some entry has it, and then the
      map holds that entry's class path. */
  lemma {:induction false} AsMapEntries(es: seq<Entry>)
    requires Sorted(es)
    ensures forall v :: v in AsMap(es) <==> exists i :: 0 <= i < |es| && es[i].version == v
    ensures forall i :: 0 <= i < |es| ==> AsMap(es)[es[i].version] == es[i].packages
  {
    if es != [] {
      var rest := es[1..];
      AsMapEntries(rest);
      forall v | v in AsMap(es)
        ensures exists i :: 0 <= i < |es| && es[i].version == v
      {
        if v != es[0].version {
          var i :| 0 <= i < |rest| && rest[i].version == v;
          assert es[i + 1].version == v;
        }
      }
      forall i | 0 <= i < |es|
        ensures AsMap(es)[es[i].version] == es[i].packages
      {
        if i > 0 {
          assert rest[i - 1] == es[i];
          assert es[i].version != es[0].version by {
            StringLessIrreflexive(es[0].version);
          }
        }
      }
    }
  }

  /** A sorted table has one entry per version, so its length is the map's size. */
  lemma {:induction false} SizeIsKeyCount(es: seq<Entry>)
    requires Sorted(es)
    ensures |AsMap(es).Keys| == |es|
  {
    if es != [] {
      var rest := es[1..];
      SizeIsKeyCount(rest);
      AsMapEntries(rest);
      if es[0].version in AsMap(rest) {
        var i :| 0 <= i < |rest| && rest[i].version == es[0].version;
        assert StringLess(es[0].version, es[i + 1].version);
        StringLessIrreflexive(es[0].version);
      }
      assert AsMap(es).Keys == AsMap(rest).Keys + {es[0].version};
    }
  }

  /** `_registrations.insert`: the entry at its place in version order. */
  function Insert(es: seq<Entry>, e: Entry): seq<Entry>
  {
    if es == [] then [e]
    else if StringLess(e.version, es[0].version) then [e] + es
    else [es[0]] + Insert(es[1..], e)
  }

  /** Inserting adds exactly the new entry and lengthens the table by one. */
  lemma {:induction false} InsertElements(es: seq<Entry>, e: Entry)
    ensures |Insert(es, e)| == |es| + 1
    ensures forall x :: x in Insert(es, e) <==> x in es || x == e
  {
    if es != [] && !StringLess(e.version, es[0].version) {
      InsertElements(es[1..], e);
      assert es == [es[0]] + es[1..];
    }
  }

  /** Inserting a version not yet present adds that one mapping. */
  lemma {:induction false} InsertMap(es: seq<Entry>, e: Entry)
    requires e.version !in AsMap(es)
    ensures AsMap(Insert(es, e)) == AsMap(es)[e.version := e.packages]
  {
    if es == [] {
    } else if StringLess(e.version, es[0].version) {
      assert ([e] + es)[1..] == es;
    } else {
      var rest := es[1..];
      InsertMap(rest, e);
      var ins := Insert(rest, e);
      assert ([es[0]] + ins)[1..] == ins;
      var m := AsMap(rest);
      assert m[e.version := e.packages][es[0].version := es[0].packages]
          == m[es[0].version := es[0].packages][e.version := e.packages];
    }
  }

  /** Inserting a version not yet present keeps the versions ascending. */
  lemma {:induction false} InsertSorted(es: seq<Entry>, e: Entry)
    requires Sorted(es) && forall i :: 0 <= i < |es| ==> es[i].version != e.version
    ensures Sorted(Insert(es, e))
  {
    if es == [] {
    } else if StringLess(e.version, es[0].version) {
      var r := [e] + es;
      forall i, j | 0 <= i < j < |r|
        ensures StringLess(r[i].version, r[j].version)
      {
        if i == 0 && j > 1 {
          StringLessTransitive(e.version, es[0].version, es[j - 1].version);
        }
      }
    } else {
      var rest := es[1..];
      StringLessTrichotomy(e.version, es[0].version);
      InsertSorted(rest, e);
      var ins := Insert(rest, e);
      InsertElements(rest, e);
      var r := [es[0]] + ins;
      forall i, j | 0 <= i < j < |r|
        ensures StringLess(r[i].version, r[j].version)
      {
        if i == 0 {
          assert r[j] in ins;
          if r[j] != e {
            assert r[j] in rest;
            var k :| 0 <= k < |rest| && rest[k] == r[j];
            assert es[k + 1] == rest[k];
          }
        }
      }
    }
  }

  /** Inserting a new version keeps the table sorted, adds that one mapping,
      and lengthens the table by one. */
  lemma InsertSpec(es: seq<Entry>, e: Entry)
    requires Sorted(es) && e.version !in AsMap(es)
    ensures Sorted(Insert(es, e))
    ensures AsMap(Insert(es, e)) == AsMap(es)[e.version := e.packages]
    ensures |Insert(es, e)| == |es| + 1
  {
    AsMapEntries(es);
    InsertElements(es, e);
    InsertMap(es, e);
    InsertSorted(es, e);
  }

  /** `_registrations.erase(version)`: drops the entry with that version. */
  function Erase(es: seq<Entry>, version: string): seq<Entry>
  {
    if es == [] then []
    else if es[0].version == version then es[1..]
    else [es[0]] + Erase(es[1..], version)
  }

  /** Erasing keeps only entries that were there, and all those of other
      versions. */
  lemma {:induction false} EraseElements(es: seq<Entry>, version: string)
    ensures forall x :: x in Erase(es, version) ==> x in es
    ensures forall x :: x in es && x.version != version ==> x in Erase(es, version)
  {
    if es != [] && es[0].version != version {
      EraseElements(es[1..], version);
      assert es == [es[0]] + es[1..];
    }
  }

  /** Erasing from a sorted table removes exactly that version and shortens
      the table by one exactly when the version was there. */
  lemma {:induction false} EraseMap(es: seq<Entry>, version: string)
    requires Sorted(es)
    ensures AsMap(Erase(es, version)) == AsMap(es) - {version}
  {
    if es != [] {
      var rest := es[1..];
      assert Sorted(rest);
      if es[0].version == version {
        HeadNotInTail(es);
        assert AsMap(es) - {version} == AsMap(rest);
      } else {
        EraseMap(rest, version);
        var er := Erase(rest, version);
        assert ([es[0]] + er)[1..] == er;
        var m := AsMap(rest);
        assert (m - {version})[es[0].version := es[0].packages] == m[es[0].version := es[0].packages] - {version};
      }
    }
  }

  /** In a sorted table the first version does not recur. */
  lemma HeadNotInTail(es: seq<Entry>)
    requires Sorted(es) && es != []
    ensures es[0].version !in AsMap(es[1..])
  {
    var rest := es[1..];
    AsMapEntries(rest);
    if es[0].version in AsMap(rest) {
      var i :| 0 <= i < |rest| && rest[i].version == es[0].version;
      assert StringLess(es[0].version, es[i + 1].version);
      StringLessIrreflexive(es[0].version);
    }
  }

  /** Erasing shortens the table by one exactly when the version was there. */
  lemma EraseLength(es: seq<Entry>, version: string)
    requires Sorted(es)
    ensures |Erase(es, version)| == |es| - (if version in AsMap(es) then 1 else 0)
  {
    EraseSorted(es, version);
    EraseMap(es, version);
    SizeIsKeyCount(es);
    SizeIsKeyCount(Erase(es, version));
    if version in AsMap(es) {
      assert AsMap(es).Keys == (AsMap(es) - {version}).Keys + {version};
    } else {
      assert AsMap(es).Keys == (AsMap(es) - {version}).Keys;
    }
  }

  /** Erasing keeps the versions ascending. */
  lemma {:induction false} EraseSorted(es: seq<Entry>, version: string)
    requires Sorted(es)
    ensures Sorted(Erase(es, version))
  {
    if es != [] && es[0].version != version {
      var rest := es[1..];
      EraseSorted(rest, version);
      EraseElements(rest, version);
      var er := Erase(rest, version);
      var r := [es[0]] + er;
      forall i, j | 0 <= i < j < |r|
        ensures StringLess(r[i].version, r[j].version)
      {
        if i == 0 {
          assert r[j] in rest;
          var k :| 0 <= k < |rest| && rest[k] == r[j];
          assert es[k + 1] == rest[k];
        }
      }
    }
  }

  /** Erasing keeps the table sorted, removes exactly that version, and
      shortens the table by one exactly when the version was there. */
  lemma EraseSpec(es: seq<Entry>, version: string)
    requires Sorted(es)
    ensures Sorted(Erase(es, version))
    ensures AsMap(Erase(es, version)) == AsMap(es) - {version}
    ensures |Erase(es, version)| == |es| - (if version in AsMap(es) then 1 else 0)
  {
    EraseMap(es, version);
    EraseSorted(es, version);
    EraseLength(es, version);
  }

  /** The last entry of a sorted table holds the greatest version. */
  lemma LastIsNewest(es: seq<Entry>)
    requires Sorted(es) && |es| > 0
    ensures es[|es| - 1].version in AsMap(es)
    ensures AsMap(es)[es[|es| - 1].version] == es[|es| - 1].packages
    ensures forall v :: v in AsMap(es) && v != es[|es| - 1].version ==> StringLess(v, es[|es| - 1].version)
  {
    AsMapEntries(es);
  }

  /** The message the `invalid_argument` for a version already registered is
      evidently meant to carry: the version, then the reason. */
  function AlreadyRegistered(version: string): string
  {
    version + " is already registered"
  }

  /** The message as the code builds it: `version` has already been moved
      into the map's insertion argument, and a moved-from `std::string` is
      empty in the common standard libraries. */
  function AlreadyRegisteredAsWritten(version: string): string
  {
    var movedFrom: string := [];
    movedFrom + " is already registered"
  }

  /** As written, the message never names the version that clashed. */
  lemma AlreadyRegisteredAsWrittenDiffers(version: string)
    requires |version| > 0
    ensures AlreadyRegisteredAsWritten(version) != AlreadyRegistered(version)
    ensures AlreadyRegisteredAsWritten("1.0") == " is already registered"
  {
    assert |AlreadyRegisteredAsWritten(version)| < |AlreadyRegistered(version)|;
  }

  /** The intended message starts with the version it refuses. */
  lemma AlreadyRegisteredNamesVersion(version: string)
    ensures |version| <= |AlreadyRegistered(version)|
    ensures AlreadyRegistered(version)[..|version|] == version
  {
  }

  /** `package_registry`. `alive` stands for `_lifetime`: the registry's
      destructor resets it, and handles outliving the registry then find no
      owner. */
  class PackageRegistry {
    var entries: seq<Entry>
    var alive: bool

    predicate Valid()
      reads this
    {
      Sorted(entries)
    }

    /** The registered versions and their class paths. */
    function Registrations(): map<string, Classpath.Classpath>
      reads this
    {
      AsMap(entries)
    }

    constructor()
      ensures Valid() && alive && Registrations() == map[]
    {
      entries := [];
      alive := true;
    }

    /** `register_classpath_server`: refuses a version already present with
        the message the code builds (from the moved-from version), otherwise
        adds it and returns a handle naming it. */
    method Register(version: string, packages: Classpath.Classpath) returns (r: Result<Registration, string>)
      requires Valid()
      modifies this
      ensures Valid() && alive == old(alive)
      ensures version in old(Registrations()) ==> r == Err(AlreadyRegisteredAsWritten(version)) && entries == old(entries)
      ensures version !in old(Registrations()) ==>
                && r.Ok? && fresh(r.value) && r.value.owner == this && r.value.name == version
                && Registrations() == old(Registrations())[version := packages]
                && Size() == old(Size()) + 1
    {
      if version in AsMap(entries) {
        return Err(AlreadyRegisteredAsWritten(version));
      }
      InsertSpec(entries, Entry(version, packages));
      entries := Insert(entries, Entry(version, packages));
      var handle := new Registration(this, version);
      r := Ok(handle);
    }

    /** `unregister_server(const registration_info&)`: erases the handle's
        version and tells whether anything was removed. */
    method UnregisterInfo(reg: Registration) returns (removed: bool)
      requires Valid()
      modifies this
      ensures Valid() && alive == old(alive)
      ensures removed <==> reg.name in old(Registrations())
      ensures Registrations() == old(Registrations()) - {reg.name}
      ensures Size() == old(Size()) - (if removed then 1 else 0)
    {
      removed := reg.name in AsMap(entries);
      EraseSpec(entries, reg.name);
      entries := Erase(entries, reg.name);
    }

    /** `unregister_server(registration)`: a null handle removes nothing. */
    method Unregister(reg: Option<Registration>) returns (removed: bool)
      requires Valid()
      modifies this
      ensures Valid() && alive == old(alive)
      ensures reg.None? ==> !removed && entries == old(entries)
      ensures reg.Some? ==> (removed <==> reg.value.name in old(Registrations()))
                            && Registrations() == old(Registrations()) - {reg.value.name}
    {
      if reg.Some? {
        removed := UnregisterInfo(reg.value);
      } else {
        removed := false;
      }
    }

    /** `size`: the number of registered versions. */
    function Size(): (n: nat)
      requires Valid()
      reads this
      ensures n == |Registrations().Keys|
    {
      SizeIsKeyCount(entries);
      |entries|
    }

    /** `empty`. */
    function Empty(): (b: bool)
      requires Valid()
      reads this
      ensures b <==> Registrations() == map[]
    {
      Size() == 0
    }

    /** `find_newest_classpath`: none for an empty registry, otherwise the
        class path of the greatest version. */
    function FindNewest(): (r: Option<Classpath.Classpath>)
      requires Valid()
      reads this
      ensures r.None? <==> Registrations() == map[]
      ensures r.Some? ==> exists v :: v in Registrations() && Registrations()[v] == r.value
                                      && forall w :: w in Registrations() && w != v ==> StringLess(w, v)
    {
      if |entries| == 0 then None
      else
        LastIsNewest(entries);
        Some(entries[|entries| - 1].packages)
    }

    /** The destructor: handles still held no longer reach this registry. */
    method Destroy()
      modifies this
      ensures !alive && entries == old(entries)
    {
      alive := false;
    }
  }

  /** `registration_info`: the version a handle stands for and the registry
      it came from. */
  class Registration {
    const owner: PackageRegistry
    const name: string

    constructor(owner: PackageRegistry, name: string)
      ensures this.owner == owner && this.name == name
    {
      this.owner := owner;
      this.name := name;
    }

    /** The destructor, run when the last copy of the handle goes away: the
        version is unregistered if its registry still exists. */
    method Release()
      requires owner.Valid()
      modifies owner
      ensures owner.Valid() && owner.alive == old(owner.alive)
      ensures old(owner.alive) ==> owner.Registrations() == old(owner.Registrations()) - {name}
      ensures !old(owner.alive) ==> owner.entries == old(owner.entries)
    {
      if owner.alive {
        var _ := owner.UnregisterInfo(this);
      }
    }
  }

  /** Registering "1.0" and "2.0", refusing "1.0" again, dropping the "2.0"
      handle, then unregistering through a null and through the "1.0" handle:
      the sizes and answers along the way. */
  method RegistrationScenario(packages: Classpath.Classpath)
    returns (sizes: seq<nat>, duplicateRefused: bool, nullRemoved: bool, firstRemoved: bool, emptyAtEnd: bool)
    ensures sizes == [0, 1, 2, 1] && duplicateRefused && !nullRemoved && firstRemoved && emptyAtEnd
  {
    var registry := new PackageRegistry();
    var s0 := registry.Size();
    var first := registry.Register("1.0", packages);
    assert registry.Registrations() == map["1.0" := packages];
    assert registry.Registrations().Keys == {"1.0"};
    var s1 := registry.Size();
    var again := registry.Register("1.0", packages);
    duplicateRefused := again.Err?;
    assert "1.0" != "2.0";
    var second := registry.Register("2.0", packages);
    assert registry.Registrations().Keys == {"1.0", "2.0"};
    var s2 := registry.Size();
    assert s2 == 2;
    second.value.Release();
    assert registry.Registrations() == map["1.0" := packages];
    assert registry.Registrations().Keys == {"1.0"};
    var s3 := registry.Size();
    sizes := [s0, s1, s2, s3];
    nullRemoved := registry.Unregister(None);
    firstRemoved := registry.Unregister(Some(first.value));
    emptyAtEnd := registry.Empty();
  }
}
