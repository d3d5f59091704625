/** Form sharing of fsforms/share_xform.py over two permission stores: the
  * KPI `ObjectPermission` table (`share_form`, `share_forms`,
  * `share_form_global`, with the `SharedFieldSightForm` table), and the
  * django-guardian object grants (`share_m2m`, `share_o2o`). Every grant is
  * added only when absent, so sharing only ever adds rows. */
module ShareXform {
  import opened Common

  /** A KPI ObjectPermission row. */
  datatype ObjectPermission = ObjectPermission(objectId: int, contentType: int, user: int, permission: int,
                                               deny: bool, inherited: bool)

  /** A row of `Permission`: its primary key and codename (all taken to be
    * of the 'kpi' app label the queries filter on). */
  datatype Permission = Permission(pk: int, codename: string)

  /** What the existence test of a grant matches on besides the content
    * type: the asset, the user and the permission. */
  datatype Key = Key(objectId: int, user: int, permission: int)

  /** `Permission.objects.filter(content_type__app_label='kpi',
    * codename__in=codenames)`, as primary keys in table order. */
  function KpiPermissions(table: seq<Permission>, codenames: seq<string>): (r: seq<int>)
    ensures forall p :: p in r <==> exists x :: x in table && x.codename in codenames && x.pk == p
  {
    if table == [] then []
    else
      assert forall x :: x in table <==> x == table[0] || x in table[1..];
      (if table[0].codename in codenames then [table[0].pk] else []) + KpiPermissions(table[1..], codenames)
  }

  /** `ObjectPermission.objects.filter(object_id, content_type, user,
    * permission_id).exists()`. */
  predicate Holds(rows: seq<ObjectPermission>, ct: int, k: Key)
  {
    exists x :: x in rows && x.objectId == k.objectId && x.contentType == ct && x.user == k.user && x.permission == k.permission
  }

  /** The flags every row sharing creates carries. */
  predicate Clean(x: ObjectPermission)
  {
    !x.deny && !x.inherited
  }

  function KeyOf(x: ObjectPermission): Key
  {
    Key(x.objectId, x.user, x.permission)
  }

  /** One grant of `share_form`/`share_forms`: create the row, with
    * deny=False and inherited=False, unless a matching row exists. */
  function Grant(rows: seq<ObjectPermission>, ct: int, k: Key): (r: seq<ObjectPermission>)
    ensures Holds(r, ct, k)
    ensures rows <= r && |r| <= |rows| + 1
    ensures Holds(rows, ct, k) ==> r == rows
    ensures forall i :: |rows| <= i < |r| ==> Clean(r[i]) && KeyOf(r[i]) == k && r[i].contentType == ct
  {
    if Holds(rows, ct, k) then rows
    else
      var x := ObjectPermission(k.objectId, ct, k.user, k.permission, false, false);
      assert x in rows + [x];
      rows + [x]
  }

  /** The grants of `ks`, one after the other. */
  function GrantEach(rows: seq<ObjectPermission>, ct: int, ks: seq<Key>): seq<ObjectPermission>
  {
    if ks == [] then rows else Grant(GrantEach(rows, ct, ks[..|ks| - 1]), ct, ks[|ks| - 1])
  }

  lemma HoldsGrows(a: seq<ObjectPermission>, b: seq<ObjectPermission>, ct: int, k: Key)
    requires a <= b && Holds(a, ct, k)
    ensures Holds(b, ct, k)
  {
    var x :| x in a && x.objectId == k.objectId && x.contentType == ct && x.user == k.user && x.permission == k.permission;
    var i :| 0 <= i < |a| && a[i] == x;
    assert b[i] == x;
  }

  /** Granting only appends, and every row it appends is clean, of the
    * content type, and for one of the keys. */
  lemma {:induction false} GrantEachOnlyAdds(rows: seq<ObjectPermission>, ct: int, ks: seq<Key>)
    ensures rows <= GrantEach(rows, ct, ks)
    ensures var r := GrantEach(rows, ct, ks);
      forall i :: |rows| <= i < |r| ==> Clean(r[i]) && r[i].contentType == ct && KeyOf(r[i]) in ks
  {
    if ks != [] {
      var init := ks[..|ks| - 1];
      GrantEachOnlyAdds(rows, ct, init);
      var mid := GrantEach(rows, ct, init);
      var r := GrantEach(rows, ct, ks);
      assert r == Grant(mid, ct, ks[|ks| - 1]);
      forall i | |rows| <= i < |r| ensures Clean(r[i]) && r[i].contentType == ct && KeyOf(r[i]) in ks {
        if i < |mid| {
          assert r[i] == mid[i];
          assert KeyOf(mid[i]) in init;
        }
      }
    }
  }

  /** After granting, every key is held. */
  lemma {:induction false} GrantEachCovers(rows: seq<ObjectPermission>, ct: int, ks: seq<Key>)
    ensures forall k :: k in ks ==> Holds(GrantEach(rows, ct, ks), ct, k)
  {
    if ks != [] {
      var init := ks[..|ks| - 1];
      var last := ks[|ks| - 1];
      GrantEachCovers(rows, ct, init);
      var mid := GrantEach(rows, ct, init);
      forall k | k in ks ensures Holds(GrantEach(rows, ct, ks), ct, k) {
        if k != last {
          assert k in init by { assert ks == init + [last]; }
          HoldsGrows(mid, Grant(mid, ct, last), ct, k);
        }
      }
    }
  }

  /** Granting what is already held changes nothing. */
  lemma {:induction false} GrantEachWhenHeld(rows: seq<ObjectPermission>, ct: int, ks: seq<Key>)
    requires forall k :: k in ks ==> Holds(rows, ct, k)
    ensures GrantEach(rows, ct, ks) == rows
  {
    if ks != [] {
      var init := ks[..|ks| - 1];
      assert forall k :: k in init ==> k in ks;
      GrantEachWhenHeld(rows, ct, init);
    }
  }

  /** So sharing twice leaves the store as sharing once did. */
  lemma SharingTwiceChangesNothing(rows: seq<ObjectPermission>, ct: int, ks: seq<Key>)
    ensures GrantEach(GrantEach(rows, ct, ks), ct, ks) == GrantEach(rows, ct, ks)
  {
    GrantEachCovers(rows, ct, ks);
    GrantEachWhenHeld(GrantEach(rows, ct, ks), ct, ks);
  }

  lemma {:induction false} GrantEachAppend(rows: seq<ObjectPermission>, ct: int, a: seq<Key>, b: seq<Key>)
    ensures GrantEach(rows, ct, a + b) == GrantEach(GrantEach(rows, ct, a), ct, b)
  {
    if b == [] {
      assert a + b == a;
    } else {
      assert (a + b)[..|a + b| - 1] == a + b[..|b| - 1];
      GrantEachAppend(rows, ct, a, b[..|b| - 1]);
    }
  }

  /** The grants of one user on one asset, one per permission. */
  function PermKeys(o: int, u: int, perms: seq<int>): (r: seq<Key>)
    ensures |r| == |perms| && forall i :: 0 <= i < |perms| ==> r[i] == Key(o, u, perms[i])
  {
    if perms == [] then [] else PermKeys(o, u, perms[..|perms| - 1]) + [Key(o, u, perms[|perms| - 1])]
  }

  /** The grants of `share_form`: for each user, each permission. */
  function UserKeys(o: int, users: seq<int>, perms: seq<int>): (r: seq<Key>)
    ensures forall k :: k in r <==> k.objectId == o && k.user in users && k.permission in perms
  {
    if users == [] then []
    else
      var init := users[..|users| - 1];
      var u := users[|users| - 1];
      PermKeysMembers(o, u, perms);
      assert users == init + [u];
      UserKeys(o, init, perms) + PermKeys(o, u, perms)
  }

  /** The grants of `share_forms`: for each asset, each permission. */
  function FormKeys(objs: seq<int>, u: int, perms: seq<int>): (r: seq<Key>)
    ensures forall k :: k in r <==> k.objectId in objs && k.user == u && k.permission in perms
  {
    if objs == [] then []
    else
      var init := objs[..|objs| - 1];
      var o := objs[|objs| - 1];
      PermKeysMembers(o, u, perms);
      assert objs == init + [o];
      FormKeys(init, u, perms) + PermKeys(o, u, perms)
  }

  /** The grants for one asset and user are exactly its permissions. */
  lemma PermKeysMembers(o: int, u: int, perms: seq<int>)
    ensures forall k :: k in PermKeys(o, u, perms) <==> k.objectId == o && k.user == u && k.permission in perms
  {
    forall k: Key | k.objectId == o && k.user == u && k.permission in perms ensures k in PermKeys(o, u, perms) {
      var i :| 0 <= i < |perms| && perms[i] == k.permission;
      assert PermKeys(o, u, perms)[i] == k;
    }
  }

  /** `share_forms` is the dual of `share_form`: for a form `o` among the
    * forms and a user `u` among the users, both grant `u` on `o` exactly
    * the listed permissions. */
  lemma ShareFormsIsTheDualOfShareForm(o: int, objs: seq<int>, u: int, users: seq<int>, perms: seq<int>)
    requires o in objs && u in users
    ensures forall k: Key :: k.user == u && k.objectId == o ==> (k in UserKeys(o, users, perms) <==> k in FormKeys(objs, u, perms))
    ensures forall k: Key :: k.user == u && k.objectId == o ==> (k in FormKeys(objs, u, perms) <==> k.permission in perms)
  {
  }

  /** The asset ids `Asset.objects.get(uid=...)` finds for `ids`, up to the
    * first uid with no asset, where the lookup raises. */
  function Resolve(ids: seq<string>, assets: map<string, int>): (r: seq<int>)
    ensures |r| <= |ids|
    ensures forall i :: 0 <= i < |r| ==> ids[i] in assets && r[i] == assets[ids[i]]
    ensures (forall i :: 0 <= i < |ids| ==> ids[i] in assets) ==> |r| == |ids|
  {
    if ids == [] || ids[0] !in assets then []
    else [assets[ids[0]]] + Resolve(ids[1..], assets)
  }

  lemma {:induction false} ResolveSnoc(ids: seq<string>, assets: map<string, int>, i: int)
    requires 0 <= i < |ids| && forall k :: 0 <= k <= i ==> ids[k] in assets
    ensures Resolve(ids[..i + 1], assets) == Resolve(ids[..i], assets) + [assets[ids[i]]]
  {
    if i > 0 {
      assert ids[..i + 1][1..] == ids[1..][..i] && ids[..i][1..] == ids[1..][..i - 1];
      ResolveSnoc(ids[1..], assets, i - 1);
    }
  }

  lemma {:induction false} ResolveStops(ids: seq<string>, assets: map<string, int>, i: int)
    requires 0 <= i < |ids| && ids[i] !in assets
    ensures Resolve(ids, assets) == Resolve(ids[..i], assets)
  {
    if i > 0 && ids[0] in assets {
      assert ids[..i][1..] == ids[1..][..i - 1];
      ResolveStops(ids[1..], assets, i - 1);
    }
  }

  lemma GrantEachSnoc(rows: seq<ObjectPermission>, ct: int, ks: seq<Key>, k: Key)
    ensures GrantEach(rows, ct, ks + [k]) == Grant(GrantEach(rows, ct, ks), ct, k)
  {
    assert (ks + [k])[..|ks|] == ks;
  }

  lemma PermKeysSnoc(o: int, u: int, perms: seq<int>, j: int)
    requires 0 <= j < |perms|
    ensures PermKeys(o, u, perms[..j + 1]) == PermKeys(o, u, perms[..j]) + [Key(o, u, perms[j])]
  {
    assert perms[..j + 1][..j] == perms[..j];
  }

  lemma UserKeysSnoc(o: int, users: seq<int>, i: int, perms: seq<int>)
    requires 0 <= i < |users|
    ensures UserKeys(o, users[..i + 1], perms) == UserKeys(o, users[..i], perms) + PermKeys(o, users[i], perms)
  {
    assert users[..i + 1][..i] == users[..i];
  }

  lemma FormKeysSnoc(objs: seq<int>, o: int, u: int, perms: seq<int>)
    ensures FormKeys(objs + [o], u, perms) == FormKeys(objs, u, perms) + PermKeys(o, u, perms)
  {
    assert (objs + [o])[..|objs|] == objs;
  }

  lemma {:induction false} NoPermissionsNoKeys(objs: seq<int>, u: int)
    ensures FormKeys(objs, u, []) == []
    decreases |objs|
  {
    if objs != [] {
      var init := objs[..|objs| - 1];
      NoPermissionsNoKeys(init, u);
      assert FormKeys(objs, u, []) == FormKeys(init, u, []) + PermKeys(objs[|objs| - 1], u, []);
    }
  }

  /** A SharedFieldSightForm row. */
  datatype SharedForm = SharedForm(xf: int, shared: bool)

  /** How many rows `get_or_create(xf=form, shared=True)` matches. */
  function CountShared(shared: seq<SharedForm>, xf: int): (n: nat)
    ensures n == 0 <==> SharedForm(xf, true) !in shared
  {
    if shared == [] then 0
    else (if shared[0] == SharedForm(xf, true) then 1 else 0) + CountShared(shared[1..], xf)
  }

  /** `SharedFieldSightForm.objects.get_or_create(xf=form, shared=True)`,
    * and, when a row was found, `filter(xf=form).update(shared=True)`.
    * None: more than one row matched and `get` raised. */
  function EnsureShared(shared: seq<SharedForm>, xf: int): (r: Option<seq<SharedForm>>)
    ensures r.Some? ==> SharedForm(xf, true) in r.value
    ensures r.Some? ==> forall s :: s in shared && s.xf != xf ==> s in r.value
    ensures r.None? <==> CountShared(shared, xf) > 1
  {
    var n := CountShared(shared, xf);
    if n > 1 then None
    else if n == 0 then
      assert SharedForm(xf, true) in shared + [SharedForm(xf, true)];
      Some(shared + [SharedForm(xf, true)])
    else
      var r := Map(shared, (s: SharedForm) => if s.xf == xf then s.(shared := true) else s);
      assert forall s :: s in shared && s.xf != xf ==> s in r by {
        forall s | s in shared && s.xf != xf ensures s in r {
          var i :| 0 <= i < |shared| && shared[i] == s;
          assert r[i] == s;
        }
      }
      assert SharedForm(xf, true) in r by {
        var i :| 0 <= i < |shared| && shared[i] == SharedForm(xf, true);
        assert r[i] == SharedForm(xf, true);
      }
      Some(r)
  }

  /** A row with no match is added beside an unshared row of the same form,
    * which stays unshared: the update runs only when a shared row was
    * found. */
  lemma UnsharedRowStaysBesideNewRow(xf: int)
    ensures EnsureShared([SharedForm(xf, false)], xf) == Some([SharedForm(xf, false), SharedForm(xf, true)])
  {
    var rows := [SharedForm(xf, false)];
    assert SharedForm(xf, true) !in rows;
    assert CountShared(rows, xf) == 0;
    assert EnsureShared(rows, xf) == Some(rows + [SharedForm(xf, true)]);
    assert rows + [SharedForm(xf, true)] == [SharedForm(xf, false), SharedForm(xf, true)];
  }

  /** `ObjectPermission.objects.filter(..., deny=False,
    * inherited=False).exists()`: the global share matches on the flags as
    * well. */
  predicate HoldsClean(rows: seq<ObjectPermission>, ct: int, k: Key)
  {
    exists x :: x in rows && KeyOf(x) == k && x.contentType == ct && Clean(x)
  }

  datatype GlobalState = GlobalState(rows: seq<ObjectPermission>, shared: seq<SharedForm>)

  /** The state of `share_form_global` after some permissions, and whether
    * no `get_or_create` raised. */
  datatype GlobalRun = GlobalRun(st: GlobalState, ok: bool)

  /** The anonymous user, `User.objects.get(id=-1)`. */
  const AnonymousUser: int := -1

  /** One permission of `share_form_global`: when the anonymous user has no
    * clean grant, create it and ensure the form's shared row. */
  function GlobalStep(st: GlobalState, o: int, ct: int, xf: int, p: int): (r: GlobalRun)
    ensures r.ok ==> HoldsClean(r.st.rows, ct, Key(o, AnonymousUser, p))
    ensures st.rows <= r.st.rows
    ensures HoldsClean(st.rows, ct, Key(o, AnonymousUser, p)) ==> r == GlobalRun(st, true)
    ensures r.ok && r.st.shared != st.shared ==> SharedForm(xf, true) in r.st.shared
  {
    var k := Key(o, AnonymousUser, p);
    if HoldsClean(st.rows, ct, k) then GlobalRun(st, true)
    else
      var x := ObjectPermission(o, ct, AnonymousUser, p, false, false);
      var rows := st.rows + [x];
      assert x in rows && KeyOf(x) == k;
      match EnsureShared(st.shared, xf)
      case None => GlobalRun(GlobalState(rows, st.shared), false)
      case Some(shared) => GlobalRun(GlobalState(rows, shared), true)
  }

  /** `share_form_global`'s loop over `perms`, stopping where a
    * `get_or_create` raised. */
  function GlobalAll(st: GlobalState, o: int, ct: int, xf: int, perms: seq<int>): (r: GlobalRun)
  {
    if perms == [] then GlobalRun(st, true)
    else
      var prev := GlobalAll(st, o, ct, xf, perms[..|perms| - 1]);
      if !prev.ok then prev else GlobalStep(prev.st, o, ct, xf, perms[|perms| - 1])
  }

  /** A successful global share leaves the anonymous user a clean grant of
    * every permission, having only added rows. */
  lemma {:induction false} GlobalAllCovers(st: GlobalState, o: int, ct: int, xf: int, perms: seq<int>)
    ensures st.rows <= GlobalAll(st, o, ct, xf, perms).st.rows
    ensures var r := GlobalAll(st, o, ct, xf, perms);
      r.ok ==> forall p :: p in perms ==> HoldsClean(r.st.rows, ct, Key(o, AnonymousUser, p))
  {
    if perms != [] {
      var init := perms[..|perms| - 1];
      GlobalAllCovers(st, o, ct, xf, init);
      var prev := GlobalAll(st, o, ct, xf, init);
      if prev.ok {
        var r := GlobalStep(prev.st, o, ct, xf, perms[|perms| - 1]);
        if r.ok {
          forall p | p in perms ensures HoldsClean(r.st.rows, ct, Key(o, AnonymousUser, p)) {
            if p != perms[|perms| - 1] {
              assert p in init by { assert perms == init + [perms[|perms| - 1]]; }
              var x :| x in prev.st.rows && KeyOf(x) == Key(o, AnonymousUser, p) && x.contentType == ct && Clean(x);
              var i :| 0 <= i < |prev.st.rows| && prev.st.rows[i] == x;
              assert r.st.rows[i] == x;
            }
          }
        }
      }
    }
  }

  /** When every clean grant is already there the global share changes
    * nothing; in particular a second global share changes nothing. */
  lemma {:induction false} GlobalAllWhenHeld(st: GlobalState, o: int, ct: int, xf: int, perms: seq<int>)
    requires forall p :: p in perms ==> HoldsClean(st.rows, ct, Key(o, AnonymousUser, p))
    ensures GlobalAll(st, o, ct, xf, perms) == GlobalRun(st, true)
  {
    if perms != [] {
      var init := perms[..|perms| - 1];
      assert forall p :: p in init ==> p in perms;
      GlobalAllWhenHeld(st, o, ct, xf, init);
      assert perms[|perms| - 1] in perms;
    }
  }

  /** A denied or inherited grant does not count for the global share: a
    * clean row is added beside it. */
  lemma DeniedGrantIsDuplicated(o: int, ct: int, xf: int, p: int)
    ensures var denied := ObjectPermission(o, ct, AnonymousUser, p, true, false);
      GlobalStep(GlobalState([denied], []), o, ct, xf, p).st.rows ==
        [denied, ObjectPermission(o, ct, AnonymousUser, p, false, false)]
  {
    var denied := ObjectPermission(o, ct, AnonymousUser, p, true, false);
    assert !HoldsClean([denied], ct, Key(o, AnonymousUser, p));
  }

  /** The codenames `share_form` and `share_forms` grant. */
  const ShareCodenames: seq<string> := ["view_asset", "change_asset"]

  /** The codenames `share_form_global` grants. */
  const GlobalCodenames: seq<string> := ["view_asset", "view_submissions"]

  /** The KPI permission store with the shared-form table. */
  class PermissionStore {
    var rows: seq<ObjectPermission>
    var shared: seq<SharedForm>

    constructor(rows0: seq<ObjectPermission>, shared0: seq<SharedForm>)
      ensures rows == rows0 && shared == shared0
    {
      rows := rows0;
      shared := shared0;
    }

    /** `share_form(users, xform)`, where `idString` is the form's
      * `id_string` and `assets` maps asset uids to ids and `ct` is the
      * configured asset content type. The asset lookup runs inside the
      * inner loop: with no users or no permissions it never runs; otherwise
      * it raises before anything is written. Returns True otherwise. */
    method ShareForm(users: seq<int>, idString: string, assets: map<string, int>, table: seq<Permission>, ct: int)
      returns (ok: bool)
      modifies this
      ensures ok <==> users == [] || KpiPermissions(table, ShareCodenames) == [] || idString in assets
      ensures ok && idString in assets ==>
        rows == GrantEach(old(rows), ct, UserKeys(assets[idString], users, KpiPermissions(table, ShareCodenames)))
      ensures !(ok && idString in assets) ==> rows == old(rows)
      ensures shared == old(shared)
    {
      var perms := KpiPermissions(table, ShareCodenames);
      if idString !in assets {
        return users == [] || perms == [];
      }
      var o := assets[idString];
      var i := 0;
      while i < |users|
        invariant 0 <= i <= |users|
        invariant shared == old(shared)
        invariant rows == GrantEach(old(rows), ct, UserKeys(o, users[..i], perms))
      {
        UserKeysSnoc(o, users, i, perms);
        GrantPermissions(o, users[i], perms, ct, old(rows), UserKeys(o, users[..i], perms));
        i := i + 1;
      }
      assert users[..i] == users;
      return true;
    }

    /** The inner loop of `share_form` and `share_forms`: grant each
      * permission of `perms` to `u` on asset `o`. */
    method GrantPermissions(o: int, u: int, perms: seq<int>, ct: int, ghost base: seq<ObjectPermission>, ghost before: seq<Key>)
      modifies this
      requires rows == GrantEach(base, ct, before)
      ensures rows == GrantEach(base, ct, before + PermKeys(o, u, perms))
      ensures shared == old(shared)
    {
      var j := 0;
      assert before + PermKeys(o, u, perms[..0]) == before;
      while j < |perms|
        invariant 0 <= j <= |perms|
        invariant shared == old(shared)
        invariant rows == GrantEach(base, ct, before + PermKeys(o, u, perms[..j]))
      {
        PermKeysSnoc(o, u, perms, j);
        GrantEachSnoc(base, ct, before + PermKeys(o, u, perms[..j]), Key(o, u, perms[j]));
        assert before + PermKeys(o, u, perms[..j + 1]) == (before + PermKeys(o, u, perms[..j])) + [Key(o, u, perms[j])];
        rows := Grant(rows, ct, Key(o, u, perms[j]));
        j := j + 1;
      }
      assert perms[..j] == perms;
    }

    /** `share_forms(user, forms)`, where `idStrings` are the forms'
      * `id_string`s. With no permissions no lookup runs; otherwise the
      * forms up to the first one without an asset are shared, and that one
      * raises. */
    method ShareForms(user: int, idStrings: seq<string>, assets: map<string, int>, table: seq<Permission>, ct: int)
      returns (ok: bool)
      modifies this
      ensures ok <==> KpiPermissions(table, ShareCodenames) == [] || forall i :: 0 <= i < |idStrings| ==> idStrings[i] in assets
      ensures rows == GrantEach(old(rows), ct, FormKeys(Resolve(idStrings, assets), user, KpiPermissions(table, ShareCodenames)))
      ensures shared == old(shared)
    {
      var perms := KpiPermissions(table, ShareCodenames);
      if perms == [] {
        NoPermissionsNoKeys(Resolve(idStrings, assets), user);
        return true;
      }
      var i := 0;
      while i < |idStrings|
        invariant 0 <= i <= |idStrings|
        invariant shared == old(shared)
        invariant forall k :: 0 <= k < i ==> idStrings[k] in assets
        invariant rows == GrantEach(old(rows), ct, FormKeys(Resolve(idStrings[..i], assets), user, perms))
      {
        if idStrings[i] !in assets {
          ResolveStops(idStrings, assets, i);
          return false;
        }
        var o := assets[idStrings[i]];
        ResolveSnoc(idStrings, assets, i);
        FormKeysSnoc(Resolve(idStrings[..i], assets), o, user, perms);
        GrantPermissions(o, user, perms, ct, old(rows), FormKeys(Resolve(idStrings[..i], assets), user, perms));
        i := i + 1;
      }
      assert idStrings[..i] == idStrings;
      return true;
    }

    /** `share_form_global(form)`: `xf` is the form's id. With no
      * permissions nothing is looked up; a missing asset raises before
      * anything is written; otherwise the loop of `GlobalAll`, which
      * returns True unless a `get_or_create` raised. */
    method ShareFormGlobal(xf: int, idString: string, assets: map<string, int>, table: seq<Permission>, ct: int)
      returns (ok: bool)
      modifies this
      ensures KpiPermissions(table, GlobalCodenames) == [] ==> ok && rows == old(rows) && shared == old(shared)
      ensures KpiPermissions(table, GlobalCodenames) != [] && idString !in assets ==>
        !ok && rows == old(rows) && shared == old(shared)
      ensures KpiPermissions(table, GlobalCodenames) != [] && idString in assets ==>
        GlobalRun(GlobalState(rows, shared), ok) ==
          GlobalAll(GlobalState(old(rows), old(shared)), assets[idString], ct, xf, KpiPermissions(table, GlobalCodenames))
    {
      var perms := KpiPermissions(table, GlobalCodenames);
      if perms == [] {
        return true;
      }
      if idString !in assets {
        return false;
      }
      var o := assets[idString];
      var j := 0;
      while j < |perms|
        invariant 0 <= j <= |perms|
        invariant GlobalAll(GlobalState(old(rows), old(shared)), o, ct, xf, perms[..j]) == GlobalRun(GlobalState(rows, shared), true)
      {
        assert perms[..j + 1][..j] == perms[..j];
        var r := GlobalStep(GlobalState(rows, shared), o, ct, xf, perms[j]);
        rows, shared := r.st.rows, r.st.shared;
        if !r.ok {
          PrefixAbsorbsFailure(GlobalState(old(rows), old(shared)), o, ct, xf, perms, j + 1);
          return false;
        }
        j := j + 1;
      }
      assert perms[..j] == perms;
      return true;
    }
  }

  /** Once a `get_or_create` has raised, the later permissions are not
    * reached. */
  lemma {:induction false} PrefixAbsorbsFailure(st: GlobalState, o: int, ct: int, xf: int, perms: seq<int>, n: int)
    requires 0 <= n <= |perms| && !GlobalAll(st, o, ct, xf, perms[..n]).ok
    ensures GlobalAll(st, o, ct, xf, perms) == GlobalAll(st, o, ct, xf, perms[..n])
  {
    if n < |perms| {
      assert perms[..|perms| - 1][..n] == perms[..n];
      PrefixAbsorbsFailure(st, o, ct, xf, perms[..|perms| - 1], n);
      assert perms[..n] == perms[..|perms| - 1][..n];
    } else {
      assert perms[..n] == perms;
    }
  }

  /** A django-guardian object permission: user, codename and form. */
  datatype ObjectGrant = ObjectGrant(user: int, codename: string, xform: int)

  /** The grants `share_m2m` leaves: 'change_xform' on each form for each
    * user, and no 'view_xform': its second test re-checks 'change_xform',
    * which the first step has just granted. */
  function M2MGrants(users: seq<int>, forms: seq<int>): set<ObjectGrant>
  {
    set u, f | u in users && f in forms :: ObjectGrant(u, "change_xform", f)
  }

  /** The grants `share_m2m` evidently means to leave, as `share_o2o`
    * does: both 'change_xform' and 'view_xform'. */
  function M2MGrantsIntended(users: seq<int>, forms: seq<int>): (r: set<ObjectGrant>)
    ensures forall u, f :: u in users && f in forms ==>
      ObjectGrant(u, "change_xform", f) in r && ObjectGrant(u, "view_xform", f) in r
    ensures forall g :: g in r ==> g.user in users && g.xform in forms && g.codename in {"change_xform", "view_xform"}
  {
    set u, f, c | u in users && f in forms && c in ["change_xform", "view_xform"] :: ObjectGrant(u, c, f)
  }

  /** `share_m2m` as written never grants 'view_xform'. */
  lemma M2MNeverGrantsView(users: seq<int>, forms: seq<int>)
    ensures forall g :: g in M2MGrants(users, forms) ==> g.codename == "change_xform"
    ensures users != [] && forms != [] ==> ObjectGrant(users[0], "view_xform", forms[0]) !in M2MGrants(users, forms)
  {
  }

  /** For one user and one form the intended `share_m2m` grants exactly
    * what `share_o2o` does. */
  lemma IntendedM2MIsO2O(u: int, f: int)
    ensures M2MGrantsIntended([u], [f]) == {ObjectGrant(u, "change_xform", f), ObjectGrant(u, "view_xform", f)}
  {
  }

  /** The guardian grant store (`user.has_perm` on a form, `assign_perm`).
    * Superuser and group permissions, which `has_perm` also consults, are
    * not modelled. */
  class GuardianStore {
    var grants: set<ObjectGrant>

    constructor(grants0: set<ObjectGrant>)
      ensures grants == grants0
    {
      grants := grants0;
    }

    /** `share_m2m(users, forms)` as written. */
    method ShareM2M(users: seq<int>, forms: seq<int>)
      modifies this
      ensures grants == old(grants) + M2MGrants(users, forms)
    {
      var i := 0;
      while i < |users|
        invariant 0 <= i <= |users|
        invariant grants == old(grants) + M2MGrants(users[..i], forms)
      {
        var j := 0;
        while j < |forms|
          invariant 0 <= j <= |forms|
          invariant grants == old(grants) + M2MGrants(users[..i], forms) + M2MGrants([users[i]], forms[..j])
        {
          var u, f := users[i], forms[j];
          if ObjectGrant(u, "change_xform", f) !in grants {
            grants := grants + {ObjectGrant(u, "change_xform", f)};
          }
          // The second test re-checks 'change_xform', which now holds.
          grants := grants + (if ObjectGrant(u, "change_xform", f) !in grants then {ObjectGrant(u, "view_xform", f)} else {});
          assert M2MGrants([users[i]], forms[..j + 1]) ==
            M2MGrants([users[i]], forms[..j]) + {ObjectGrant(users[i], "change_xform", forms[j])};
          j := j + 1;
        }
        assert forms[..j] == forms;
        assert M2MGrants(users[..i + 1], forms) == M2MGrants(users[..i], forms) + M2MGrants([users[i]], forms);
        i := i + 1;
      }
      assert users[..i] == users;
    }

    /** `share_m2m(users, forms)` as evidently intended: `share_o2o` for
      * each user and form. */
    method ShareM2MIntended(users: seq<int>, forms: seq<int>)
      modifies this
      ensures grants == old(grants) + M2MGrantsIntended(users, forms)
    {
      var i := 0;
      while i < |users|
        invariant 0 <= i <= |users|
        invariant grants == old(grants) + M2MGrantsIntended(users[..i], forms)
      {
        var j := 0;
        while j < |forms|
          invariant 0 <= j <= |forms|
          invariant grants == old(grants) + M2MGrantsIntended(users[..i], forms) + M2MGrantsIntended([users[i]], forms[..j])
        {
          ShareO2O(users[i], forms[j]);
          assert M2MGrantsIntended([users[i]], forms[..j + 1]) ==
            M2MGrantsIntended([users[i]], forms[..j]) +
              {ObjectGrant(users[i], "change_xform", forms[j]), ObjectGrant(users[i], "view_xform", forms[j])};
          j := j + 1;
        }
        assert forms[..j] == forms;
        assert M2MGrantsIntended(users[..i + 1], forms) == M2MGrantsIntended(users[..i], forms) + M2MGrantsIntended([users[i]], forms);
        i := i + 1;
      }
      assert users[..i] == users;
    }

    /** `share_o2o(user, xform)`: both grants, each added when absent. */
    method ShareO2O(user: int, xform: int)
      modifies this
      ensures grants == old(grants) + {ObjectGrant(user, "change_xform", xform), ObjectGrant(user, "view_xform", xform)}
    {
      if ObjectGrant(user, "change_xform", xform) !in grants {
        grants := grants + {ObjectGrant(user, "change_xform", xform)};
      }
      if ObjectGrant(user, "view_xform", xform) !in grants {
        grants := grants + {ObjectGrant(user, "view_xform", xform)};
      }
    }
  }
}
