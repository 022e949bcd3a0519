/**
 * The local licence panel (components/SaaSAdmin.tsx): reading the licence
 * list from local storage and generating a new licence key in front of it.
 */
module SaasAdmin {
  import opened Wrappers
  import opened Types
  import opened Text

  const KeyPrefix := "SAAS-"

  /** `SAAS-A-B-C`, the layout of a key. */
  function JoinKey(a: string, b: string, c: string): string {
    KeyPrefix + a + "-" + b + "-" + c
  }

  /** `SAAS-A-B-C` with each random part upper-cased. */
  function LicenseKey(p1: string, p2: string, p3: string): (k: string)
    ensures k == JoinKey(Upper(p1), Upper(p2), Upper(p3))
    ensures |k| == |KeyPrefix| + |p1| + |p2| + |p3| + 2
    ensures k[..5] == KeyPrefix
    ensures k[5 + |p1|] == '-' && k[6 + |p1| + |p2|] == '-'
    ensures forall i :: 0 <= i < |k| ==> !IsLowerLetter(k[i])
  {
    var k := JoinKey(Upper(p1), Upper(p2), Upper(p3));
    assert forall i :: 0 <= i < |KeyPrefix| ==> !IsLowerLetter(KeyPrefix[i]);
    k
  }

  /** The three parts can be read back from a key once the part lengths are known. */
  lemma JoinKeyParts(a: string, b: string, c: string)
    ensures var k := JoinKey(a, b, c);
            && k[5..5 + |a|] == a
            && k[6 + |a|..6 + |a| + |b|] == b
            && k[7 + |a| + |b|..] == c
  {
    var head := KeyPrefix + a + "-";
    MiddleSlice(KeyPrefix, a, "-" + b + "-" + c);
    assert KeyPrefix + a + ("-" + b + "-" + c) == JoinKey(a, b, c);
    MiddleSlice(head, b, "-" + c);
    assert head + b + ("-" + c) == JoinKey(a, b, c);
    MiddleSlice(head + b + "-", c, "");
    assert head + b + "-" + c + "" == JoinKey(a, b, c);
  }

  /** The middle part of a three-way concatenation is the slice between the others. */
  lemma MiddleSlice(a: string, b: string, c: string)
    ensures (a + b + c)[|a|..|a| + |b|] == b
    ensures (a + b + c)[|a|..] == b + c
  {
    assert (a + b + c)[|a|..] == b + c;
  }

  /** Keys laid out from parts of equal lengths are equal only when the parts are. */
  lemma JoinKeyInjective(a: string, b: string, c: string, x: string, y: string, z: string)
    requires |a| == |x| && |b| == |y|
    requires JoinKey(a, b, c) == JoinKey(x, y, z)
    ensures a == x && b == y && c == z
  {
    JoinKeyParts(a, b, c);
    JoinKeyParts(x, y, z);
  }

  /** `currentUser?.email || 'admin'`. */
  function GeneratedBy(currentUser: Option<User>): (r: string)
    ensures r != ""
    ensures currentUser.Some? && currentUser.value.email != "" ==> r == currentUser.value.email
    ensures currentUser.None? || currentUser.value.email == "" ==> r == "admin"
  {
    if currentUser.Some? && currentUser.value.email != "" then currentUser.value.email else "admin"
  }

  /** `JSON.parse(getItem(key) || '[]')` for a slot that parses: the stored list, or none. */
  function StoredOrEmpty(slot: Slot<seq<License>>): (r: seq<License>)
    requires !slot.Corrupt?
    ensures slot.Absent? ==> r == []
    ensures slot.Present? ==> r == slot.value
  {
    if slot.Present? then slot.value else []
  }

  class LicenseAdmin {
    var licenses: seq<License>
    var loading: bool
    var generatedKey: string
    /** The local-storage entry `autocars_licenses`. */
    var storage: Slot<seq<License>>

    constructor (storage: Slot<seq<License>>)
      ensures this.storage == storage && licenses == [] && !loading && generatedKey == ""
    {
      this.storage := storage;
      licenses := [];
      loading := false;
      generatedKey := "";
    }

    /** `fetchLicenses`: a stored list replaces the shown one; a missing or unreadable entry leaves it. */
    method FetchLicenses()
      modifies this`licenses, this`loading
      ensures storage.Present? ==> licenses == storage.value
      ensures !storage.Present? ==> licenses == old(licenses)
      ensures !loading
    {
      loading := true;
      if storage.Present? {
        licenses := storage.value;
      }
      loading := false;
    }

    /**
     * `generateLicense`: a new available licence is stored in front of the
     * stored ones, its key is shown and the list is read back; an unreadable
     * entry aborts before anything is written.
     */
    method GenerateLicense(p1: string, p2: string, p3: string, currentUser: Option<User>, createdAt: string)
      modifies this
      ensures !loading
      ensures old(storage).Corrupt? ==>
                storage == old(storage) && licenses == old(licenses) && generatedKey == old(generatedKey)
      ensures !old(storage).Corrupt? ==>
                var created := License(LicenseKey(p1, p2, p3), LicenseAvailable, GeneratedBy(currentUser), createdAt, None, None);
                && storage == Present([created] + StoredOrEmpty(old(storage)))
                && licenses == storage.value
                && generatedKey == created.key
    {
      var key := LicenseKey(p1, p2, p3);
      var created := License(key, LicenseAvailable, GeneratedBy(currentUser), createdAt, None, None);
      loading := true;
      if storage.Corrupt? {
        loading := false;
        return;
      }
      storage := Present([created] + StoredOrEmpty(storage));
      generatedKey := key;
      FetchLicenses();
      loading := false;
    }
  }

  /** Two generations in a row list the second licence first, then the first, then what was stored before. */
  method GenerateTwice(admin: LicenseAdmin, a: seq<string>, b: seq<string>, user: Option<User>, t1: string, t2: string)
    requires |a| == 3 && |b| == 3
    requires admin.storage.Absent?
    modifies admin
    ensures |admin.licenses| == 2
    ensures admin.licenses[0].key == LicenseKey(b[0], b[1], b[2]) && admin.licenses[1].key == LicenseKey(a[0], a[1], a[2])
    ensures admin.licenses[0].status == LicenseAvailable && admin.licenses[1].status == LicenseAvailable
  {
    admin.GenerateLicense(a[0], a[1], a[2], user, t1);
    admin.GenerateLicense(b[0], b[1], b[2], user, t2);
  }
}
