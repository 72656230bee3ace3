/** Browser key/value storage and the per-user view of it: every key a
    signed-in user writes is prefixed with freelance_user_<id>_, and a
    migration, run each time the signed-in tracker is built, copies the
    tracker's older unprefixed entries into that user's space. */
module Storage {
  import opened Seqs

  /** getItem on a plain map: None where the browser answers null. */
  function Lookup(items: map<string, string>, key: string): Option<string>
  {
    if key in items then Some(items[key]) else None
  }

  /** A getItem answer that is truthy: present and not empty. */
  predicate Present(v: Option<string>)
  {
    v.Some? && v.value != ""
  }

  /** localStorage or sessionStorage. Values are strings; a missing key reads as null. */
  class WebStorage {
    var items: map<string, string>

    constructor (initial: map<string, string>)
      ensures items == initial
    {
      items := initial;
    }

    function GetItem(key: string): (r: Option<string>)
      reads this
      ensures r.Some? <==> key in items
      ensures r.Some? ==> r.value == items[key]
    {
      Lookup(items, key)
    }

    method SetItem(key: string, value: string)
      modifies this
      ensures items == old(items)[key := value]
    {
      items := items[key := value];
    }

    method RemoveItem(key: string)
      modifies this
      ensures items == old(items) - {key}
    {
      items := items - {key};
    }
  }

  // ---------------------------------------------------------------------
  // Per-user keys

  function UserPrefix(userId: string): string
  {
    "freelance_user_" + userId + "_"
  }

  function UserKey(userId: string, key: string): string
  {
    UserPrefix(userId) + key
  }

  /** Within one user's space, different keys never share storage. */
  lemma UserKeysDiffer(userId: string, k1: string, k2: string)
    requires k1 != k2
    ensures UserKey(userId, k1) != UserKey(userId, k2)
  {
    var n := |UserPrefix(userId)|;
    assert UserKey(userId, k1)[n..] == k1;
    assert UserKey(userId, k2)[n..] == k2;
  }

  /** Two users' spaces are disjoint as long as neither id contains an
      underscore, the prefix's own separator. */
  lemma UserKeysSeparate(u1: string, k1: string, u2: string, k2: string)
    requires '_' !in u1 && '_' !in u2
    requires UserKey(u1, k1) == UserKey(u2, k2)
    ensures u1 == u2 && k1 == k2
  {
    var s := UserKey(u1, k1);
    var t1 := s[15..];
    assert t1 == u1 + "_" + k1;
    assert t1 == u2 + "_" + k2;
    if |u1| < |u2| {
      SeparatorInside(u1, k1, u2, k2);
      assert false;
    } else if |u2| < |u1| {
      SeparatorInside(u2, k2, u1, k1);
      assert false;
    }
    assert u1 == t1[..|u1|] == u2;
    if k1 != k2 {
      UserKeysDiffer(u1, k1, k2);
    }
  }

  lemma SeparatorInside(u: string, k: string, v: string, w: string)
    requires |u| < |v| && u + "_" + k == v + "_" + w
    ensures '_' in v
  {
    assert (v + "_" + w)[|u|] == v[|u|];
  }

  /** With an underscore in an id, two users can land on the same key. */
  lemma UserKeysCanCollide()
    ensures exists u1, k1, u2, k2 :: u1 != u2 && UserKey(u1, k1) == UserKey(u2, k2)
  {
    assert "a_b" != "a";
    assert UserKey("a_b", "c") == UserKey("a", "b_c");
  }

  // ---------------------------------------------------------------------
  // String.prototype.replace with a string pattern

  predicate MatchesAt(s: string, pat: string, i: nat)
  {
    i + |pat| <= |s| && s[i..i + |pat|] == pat
  }

  /** The first position at or after from where pat occurs in s. */
  function FirstMatch(s: string, pat: string, from: nat): (r: Option<nat>)
    ensures r.Some? ==> from <= r.value && MatchesAt(s, pat, r.value)
    ensures r.Some? ==> forall j :: from <= j < r.value ==> !MatchesAt(s, pat, j)
    ensures r.None? ==> forall j :: from <= j ==> !MatchesAt(s, pat, j)
    decreases |s| - from
  {
    if from + |pat| > |s| then None
    else if MatchesAt(s, pat, from) then Some(from)
    else FirstMatch(s, pat, from + 1)
  }

  /** Replaces the first occurrence of pat only; s is unchanged when pat does
      not occur, and an empty pat matches at the start. */
  function ReplaceFirst(s: string, pat: string, rep: string): string
  {
    match FirstMatch(s, pat, 0)
    case None => s
    case Some(i) => s[..i] + rep + s[i + |pat|..]
  }

  // ---------------------------------------------------------------------
  // Migration of the unprefixed entries

  /** The keys the pre-account tracker wrote, in the order they are migrated. */
  const LegacyKeys: seq<string> := ["freelanceOrders", "freelanceEmployers", "freelanceCollapsedSections"]

  /** The key an old entry is copied to: the first "freelance" removed. */
  function MigratedKey(key: string): string
  {
    ReplaceFirst(key, "freelance", "")
  }

  /** getItem(key) is truthy: present and not the empty string. */
  predicate Truthy(items: map<string, string>, key: string)
  {
    key in items && items[key] != ""
  }

  /** One step of migrateExistingData: a truthy old entry is copied under the
      prefix; the old entry stays. */
  function MigrateKey(items: map<string, string>, prefix: string, key: string): map<string, string>
  {
    if Truthy(items, key) then items[prefix + MigratedKey(key) := items[key]] else items
  }

  /** The steps in order, each reading the storage the previous ones left. */
  function MigrateKeys(items: map<string, string>, prefix: string, keys: seq<string>): map<string, string>
    decreases |keys|
  {
    if keys == [] then items
    else MigrateKey(MigrateKeys(items, prefix, keys[..|keys| - 1]), prefix, keys[|keys| - 1])
  }

  /** The legacy keys lose their "freelance" and keep their capital letter. */
  lemma MigratedKeys()
    ensures MigratedKey("freelanceOrders") == "Orders"
    ensures MigratedKey("freelanceEmployers") == "Employers"
    ensures MigratedKey("freelanceCollapsedSections") == "CollapsedSections"
  {
    assert MatchesAt("freelanceOrders", "freelance", 0);
    assert MatchesAt("freelanceEmployers", "freelance", 0);
    assert MatchesAt("freelanceCollapsedSections", "freelance", 0);
  }

  /** No per-user key is one of the shared keys: the session entry and the
      three legacy entries live outside every user's space. */
  lemma UserKeysAvoidSharedKeys(userId: string, key: string)
    ensures UserKey(userId, key) != "freelanceSession"
    ensures UserKey(userId, key) !in LegacyKeys
  {
    var s := UserKey(userId, key);
    assert s[9] == '_';
    assert "freelanceSession"[9] == 'S';
    assert LegacyKeys[0][9] == 'O' && LegacyKeys[1][9] == 'E' && LegacyKeys[2][9] == 'C';
  }

  /** Everything the migration does: the three capitalised user entries
      receive truthy old values, and every other key, the old ones included,
      reads as before. */
  lemma MigrationEffect(items: map<string, string>, userId: string, key: string)
    ensures Lookup(MigrateKeys(items, UserPrefix(userId), LegacyKeys), key) ==
      if key == UserKey(userId, "CollapsedSections") && Truthy(items, "freelanceCollapsedSections")
      then Some(items["freelanceCollapsedSections"])
      else if key == UserKey(userId, "Employers") && Truthy(items, "freelanceEmployers")
      then Some(items["freelanceEmployers"])
      else if key == UserKey(userId, "Orders") && Truthy(items, "freelanceOrders")
      then Some(items["freelanceOrders"])
      else Lookup(items, key)
  {
    var p := UserPrefix(userId);
    MigratedKeys();
    UserKeysAvoidSharedKeys(userId, "Orders");
    UserKeysAvoidSharedKeys(userId, "Employers");
    assert LegacyKeys[..3][..2][..1][..0] == [];
    assert LegacyKeys[..3][..2][..1] == ["freelanceOrders"];
    assert LegacyKeys[..3][..2] == ["freelanceOrders", "freelanceEmployers"];
    var m1 := MigrateKeys(items, p, ["freelanceOrders"]);
    var m2 := MigrateKeys(items, p, ["freelanceOrders", "freelanceEmployers"]);
    assert m1 == MigrateKey(items, p, "freelanceOrders");
    assert m2 == MigrateKey(m1, p, "freelanceEmployers");
    assert Truthy(m1, "freelanceEmployers") == Truthy(items, "freelanceEmployers");
    assert Truthy(m2, "freelanceCollapsedSections") == Truthy(items, "freelanceCollapsedSections");
  }

  /** The per-user loaders read lower-case keys, so after the migration they
      still see exactly what they saw before: the copies are never read. */
  lemma LoadersIgnoreMigration(items: map<string, string>, userId: string)
    ensures var m := MigrateKeys(items, UserPrefix(userId), LegacyKeys);
      && Lookup(m, UserKey(userId, "orders")) == Lookup(items, UserKey(userId, "orders"))
      && Lookup(m, UserKey(userId, "employers")) == Lookup(items, UserKey(userId, "employers"))
      && Lookup(m, UserKey(userId, "collapsedSections")) == Lookup(items, UserKey(userId, "collapsedSections"))
  {
    LoaderKeyUntouched(items, userId, "orders");
    LoaderKeyUntouched(items, userId, "employers");
    LoaderKeyUntouched(items, userId, "collapsedSections");
  }

  lemma LoaderKeyUntouched(items: map<string, string>, userId: string, key: string)
    requires key != [] && 'a' <= key[0] <= 'z'
    ensures Lookup(MigrateKeys(items, UserPrefix(userId), LegacyKeys), UserKey(userId, key))
            == Lookup(items, UserKey(userId, key))
  {
    MigrationEffect(items, userId, UserKey(userId, key));
    assert "Orders"[0] < 'a' && "Employers"[0] < 'a' && "CollapsedSections"[0] < 'a';
    UserKeysDiffer(userId, key, "Orders");
    UserKeysDiffer(userId, key, "Employers");
    UserKeysDiffer(userId, key, "CollapsedSections");
  }

  /** UserDataManager: the user's view of localStorage. */
  class UserDataManager {
    const userId: string
    const userPrefix: string := UserPrefix(userId)
    const store: WebStorage

    constructor (userId: string, store: WebStorage)
      ensures this.userId == userId && this.store == store
    {
      this.userId := userId;
      this.store := store;
    }

    function GetItem(key: string): (r: Option<string>)
      reads store
      ensures r == Lookup(store.items, UserKey(userId, key))
    {
      store.GetItem(userPrefix + key)
    }

    method SetItem(key: string, value: string)
      modifies store
      ensures store.items == old(store.items)[UserKey(userId, key) := value]
    {
      store.SetItem(userPrefix + key, value);
    }

    method RemoveItem(key: string)
      modifies store
      ensures store.items == old(store.items) - {UserKey(userId, key)}
    {
      store.RemoveItem(userPrefix + key);
    }

    method MigrateExistingData()
      modifies store
      ensures store.items == MigrateKeys(old(store.items), userPrefix, LegacyKeys)
    {
      var oldKeys := LegacyKeys;
      var i := 0;
      while i < |oldKeys|
        invariant 0 <= i <= |oldKeys|
        invariant store.items == MigrateKeys(old(store.items), userPrefix, oldKeys[..i])
      {
        var key := oldKeys[i];
        var existingData := store.GetItem(key);
        assert oldKeys[..i + 1][..i] == oldKeys[..i];
        if existingData.Some? && existingData.value != "" {
          SetItem(MigratedKey(key), existingData.value);
        }
        i := i + 1;
      }
      assert oldKeys[..i] == LegacyKeys;
    }
  }
}
