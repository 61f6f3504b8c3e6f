/** The credential-profile store: the snapshot transitions `addApp`, `updateApp`, `deleteApp` and
    `setDefaultApp`, which App.tsx and Settings.tsx write with the same spread/map/filter expressions.
    Each returns the snapshot the handler hands on (to `saveSettings` in App.tsx, to
    `onUpdateSettings` in Settings.tsx) or says why the handler returned early. */
module CredentialStore {
  import opened Wrappers
  import opened Text

  /** One credential profile (`MiniAppConfig`). */
  datatype MiniAppConfig = MiniAppConfig(id: string, name: string, appid: string, secret: string, createdAt: int)

  /** The settings snapshot. `Rest` stands for the other fields the operations copy through
      `...settings`: none in App.tsx (`Snapshot<()>`), `theme` in Settings.tsx. `None` is `null`. */
  datatype Snapshot<Rest> = Snapshot(miniApps: seq<MiniAppConfig>, defaultAppId: Option<string>, rest: Rest)

  datatype Theme = Light | Dark | System

  /** The snapshot Settings.tsx works on, `theme` being `"light" | "dark" | "system" | null`. */
  type SettingsPageSnapshot = Snapshot<Option<Theme>>

  /** The add/edit form (`formData`). */
  datatype Form = Form(name: string, appid: string, secret: string)

  const EmptyForm: Form := Form("", "", "")

  /** Why a handler returned without producing a snapshot. */
  datatype SkipReason =
    | NotEditing     // `if (!editingApp) return`
    | Incomplete     // a trimmed field is blank: alert "请填写完整信息"
    | NotConfirmed   // the user declined `confirm`

  datatype Submission<Rest> = Submit(next: Snapshot<Rest>) | Skipped(reason: SkipReason)

  /** None of the three form fields is blank after trimming. */
  predicate Complete(f: Form) {
    !IsBlank(f.name) && !IsBlank(f.appid) && !IsBlank(f.secret)
  }

  /** JavaScript truthiness of a `string | null`: neither `null` nor `""`. */
  predicate Truthy(d: Option<string>) {
    d.Some? && d.value != ""
  }

  function Ids(apps: seq<MiniAppConfig>): set<string> {
    set a | a in apps :: a.id
  }

  predicate UniqueIds(apps: seq<MiniAppConfig>) {
    forall i, j :: 0 <= i < j < |apps| ==> apps[i].id != apps[j].id
  }

  /** The default is `null`, `""` (what un-starring stores), or the id of a stored profile. */
  predicate DefaultResolves<R>(s: Snapshot<R>) {
    match s.defaultAppId
    case None => true
    case Some(d) => d == "" || d in Ids(s.miniApps)
  }

  /** What every reachable snapshot satisfies, given that fresh ids are new. */
  predicate Invariant<R>(s: Snapshot<R>) {
    UniqueIds(s.miniApps) && DefaultResolves(s)
  }

  predicate FirstWithId(apps: seq<MiniAppConfig>, k: int, id: string) {
    0 <= k < |apps| && apps[k].id == id && forall j :: 0 <= j < k ==> apps[j].id != id
  }

  lemma IdsCons(apps: seq<MiniAppConfig>)
    requires apps != []
    ensures Ids(apps) == {apps[0].id} + Ids(apps[1..])
  {
    assert apps == [apps[0]] + apps[1..];
    forall x | x in Ids(apps) ensures x in {apps[0].id} + Ids(apps[1..]) {
      var a :| a in apps && a.id == x;
      if a != apps[0] { assert a in apps[1..]; }
    }
  }

  /** `mini_apps.find((app) => app.id === id)`: the first profile with that id. */
  function FindApp(apps: seq<MiniAppConfig>, id: string): (r: Option<MiniAppConfig>)
    ensures r.None? <==> id !in Ids(apps)
    ensures r.Some? ==> exists k :: FirstWithId(apps, k, id) && apps[k] == r.value
  {
    if apps == [] then None
    else if apps[0].id == id then
      assert FirstWithId(apps, 0, id);
      Some(apps[0])
    else
      var r := FindApp(apps[1..], id);
      IdsCons(apps);
      assert r.Some? ==> exists k :: FirstWithId(apps, k, id) && apps[k] == r.value by {
        if r.Some? {
          var k :| FirstWithId(apps[1..], k, id) && apps[1..][k] == r.value;
          assert FirstWithId(apps, k + 1, id);
        }
      }
      r
  }

  /** With unique ids, the lookup finds a profile exactly when it is stored under that id. */
  lemma FindAppUnique(apps: seq<MiniAppConfig>, a: MiniAppConfig)
    requires UniqueIds(apps)
    ensures FindApp(apps, a.id) == Some(a) <==> a in apps
  {
    if a in apps {
      var i :| 0 <= i < |apps| && apps[i] == a;
      var r := FindApp(apps, a.id);
      assert a.id in Ids(apps);
      var k :| FirstWithId(apps, k, a.id) && apps[k] == r.value;
      assert k == i;
    }
  }

  /** Looking up in a list with one profile appended. */
  lemma {:induction false} FindAppAppend(apps: seq<MiniAppConfig>, x: MiniAppConfig, id: string)
    ensures FindApp(apps + [x], id) ==
      if id in Ids(apps) then FindApp(apps, id) else if x.id == id then Some(x) else None
  {
    if apps == [] {
      assert apps + [x] == [x];
      assert [x][1..] == [];
    } else {
      assert (apps + [x])[1..] == apps[1..] + [x];
      IdsCons(apps);
      FindAppAppend(apps[1..], x, id);
    }
  }

  function NewApp(form: Form, id: string, now: int): MiniAppConfig {
    MiniAppConfig(id, form.name, form.appid, form.secret, now)
  }

  /** `addApp`: on a complete form, a new profile (id `freshId`, created at `now`) at the end. */
  function AddApp<R>(s: Snapshot<R>, form: Form, freshId: string, now: int): (r: Submission<R>)
    ensures r.Skipped? <==> !Complete(form)
    ensures r.Skipped? ==> r.reason == Incomplete
  {
    if !Complete(form) then Skipped(Incomplete)
    else
      Submit(s.(miniApps := s.miniApps + [NewApp(form, freshId, now)],
                defaultAppId := if Truthy(s.defaultAppId) then s.defaultAppId else Some(freshId)))
  }

  /** What `addApp` submits: the old profiles untouched and in order, the new one last, the default
      kept unless it was `null` or `""`, the other fields copied. */
  lemma AddAppSpec<R>(s: Snapshot<R>, form: Form, freshId: string, now: int)
    requires Complete(form)
    ensures var n := AddApp(s, form, freshId, now).next;
      && |n.miniApps| == |s.miniApps| + 1
      && n.miniApps[..|s.miniApps|] == s.miniApps
      && n.miniApps[|s.miniApps|] == NewApp(form, freshId, now)
      && (s.defaultAppId == None || s.defaultAppId == Some("") ==> n.defaultAppId == Some(freshId))
      && (s.defaultAppId != None && s.defaultAppId != Some("") ==> n.defaultAppId == s.defaultAppId)
      && n.rest == s.rest
  {
  }

  /** After adding under a fresh id, looking that id up gives the added profile. */
  lemma AddAppResolves<R>(s: Snapshot<R>, form: Form, freshId: string, now: int)
    requires Complete(form) && freshId !in Ids(s.miniApps)
    ensures FindApp(AddApp(s, form, freshId, now).next.miniApps, freshId) == Some(NewApp(form, freshId, now))
  {
    FindAppAppend(s.miniApps, NewApp(form, freshId, now), freshId);
  }

  lemma IdsAppend(apps: seq<MiniAppConfig>, x: MiniAppConfig)
    ensures Ids(apps + [x]) == Ids(apps) + {x.id}
  {
    forall y | y in Ids(apps + [x]) ensures y in Ids(apps) + {x.id} {
      var a :| a in apps + [x] && a.id == y;
      if a != x { assert a in apps; }
    }
  }

  /** Adding under a fresh id keeps ids unique and the default resolving. */
  lemma AddAppKeepsInvariant<R>(s: Snapshot<R>, form: Form, freshId: string, now: int)
    requires Invariant(s) && Complete(form) && freshId !in Ids(s.miniApps)
    ensures Invariant(AddApp(s, form, freshId, now).next)
  {
    IdsAppend(s.miniApps, NewApp(form, freshId, now));
    var n := AddApp(s, form, freshId, now).next;
    forall i, j | 0 <= i < j < |n.miniApps| ensures n.miniApps[i].id != n.miniApps[j].id {
      if j == |s.miniApps| { assert s.miniApps[i] in s.miniApps; }
    }
  }

  /** One profile with the three mutable fields rewritten when its id is `id`. */
  function Edited(app: MiniAppConfig, id: string, form: Form): MiniAppConfig {
    if app.id == id then app.(name := form.name, appid := form.appid, secret := form.secret) else app
  }

  /** `updateApp`: the profile being edited gets the form's name, appid and secret. */
  function UpdateApp<R>(s: Snapshot<R>, editing: Option<MiniAppConfig>, form: Form): (r: Submission<R>)
    ensures r.Skipped? <==> editing.None? || !Complete(form)
    ensures r.Skipped? ==> r.reason == if editing.None? then NotEditing else Incomplete
  {
    if editing.None? then Skipped(NotEditing)
    else if !Complete(form) then Skipped(Incomplete)
    else
      var id := editing.value.id;
      Submit(s.(miniApps := seq(|s.miniApps|, i requires 0 <= i < |s.miniApps| => Edited(s.miniApps[i], id, form))))
  }

  /** What `updateApp` submits: same length and order, ids and creation times kept, only the
      edited profile's three fields replaced, default and other fields copied. */
  lemma UpdateAppSpec<R>(s: Snapshot<R>, editing: MiniAppConfig, form: Form)
    requires Complete(form)
    ensures var n := UpdateApp(s, Some(editing), form).next;
      && |n.miniApps| == |s.miniApps|
      && n.defaultAppId == s.defaultAppId && n.rest == s.rest
      && Ids(n.miniApps) == Ids(s.miniApps)
      && forall i :: 0 <= i < |s.miniApps| ==>
           && n.miniApps[i].id == s.miniApps[i].id
           && n.miniApps[i].createdAt == s.miniApps[i].createdAt
           && (s.miniApps[i].id != editing.id ==> n.miniApps[i] == s.miniApps[i])
           && (s.miniApps[i].id == editing.id ==>
                 n.miniApps[i].name == form.name && n.miniApps[i].appid == form.appid
                 && n.miniApps[i].secret == form.secret)
  {
    var n := UpdateApp(s, Some(editing), form).next;
    forall x | x in Ids(n.miniApps) ensures x in Ids(s.miniApps) {
      var a :| a in n.miniApps && a.id == x;
      var i :| 0 <= i < |n.miniApps| && n.miniApps[i] == a;
      assert s.miniApps[i] in s.miniApps;
    }
    forall x | x in Ids(s.miniApps) ensures x in Ids(n.miniApps) {
      var a :| a in s.miniApps && a.id == x;
      var i :| 0 <= i < |s.miniApps| && s.miniApps[i] == a;
      assert n.miniApps[i] in n.miniApps;
    }
  }

  /** Editing keeps ids unique and the default resolving. */
  lemma UpdateAppKeepsInvariant<R>(s: Snapshot<R>, editing: MiniAppConfig, form: Form)
    requires Invariant(s) && Complete(form)
    ensures Invariant(UpdateApp(s, Some(editing), form).next)
  {
    UpdateAppSpec(s, editing, form);
  }

  /** `mini_apps.filter((app) => app.id !== id)`. */
  function Without(apps: seq<MiniAppConfig>, id: string): (r: seq<MiniAppConfig>)
    ensures |r| <= |apps|
  {
    if apps == [] then []
    else (if apps[0].id == id then [] else [apps[0]]) + Without(apps[1..], id)
  }

  /** The filter keeps exactly the profiles whose id differs. */
  lemma {:induction false} WithoutMembers(apps: seq<MiniAppConfig>, id: string)
    ensures forall a :: a in Without(apps, id) <==> a in apps && a.id != id
  {
    if apps != [] {
      WithoutMembers(apps[1..], id);
      assert apps == [apps[0]] + apps[1..];
    }
  }

  /** With unique ids, deleting the id of the profile at `k` removes exactly position `k`. */
  lemma {:induction false} WithoutExactlyOne(apps: seq<MiniAppConfig>, k: nat)
    requires UniqueIds(apps) && k < |apps|
    ensures Without(apps, apps[k].id) == apps[..k] + apps[k + 1..]
  {
    var id := apps[k].id;
    if k == 0 {
      forall i | 0 <= i < |apps[1..]| ensures apps[1..][i].id != id {
        assert apps[1..][i] == apps[i + 1];
      }
      WithoutAbsent(apps[1..], id);
    } else {
      var tail := apps[1..];
      assert UniqueIds(tail) by {
        forall i, j | 0 <= i < j < |tail| ensures tail[i].id != tail[j].id {
          assert tail[i] == apps[i + 1] && tail[j] == apps[j + 1];
        }
      }
      assert tail[k - 1] == apps[k];
      WithoutExactlyOne(tail, k - 1);
      assert apps[0].id != id;
      calc {
        Without(apps, id);
        [apps[0]] + Without(tail, id);
        [apps[0]] + (tail[..k - 1] + tail[k..]);
        { assert tail[..k - 1] == apps[1..k] && tail[k..] == apps[k + 1..]; }
        [apps[0]] + (apps[1..k] + apps[k + 1..]);
        { assert [apps[0]] + apps[1..k] == apps[..k]; }
        apps[..k] + apps[k + 1..];
      }
    }
  }

  /** Deleting an id no profile has leaves the list as it was. */
  lemma {:induction false} WithoutAbsent(apps: seq<MiniAppConfig>, id: string)
    requires forall i :: 0 <= i < |apps| ==> apps[i].id != id
    ensures Without(apps, id) == apps
  {
    if apps != [] {
      WithoutAbsent(apps[1..], id);
    }
  }

  /** `deleteApp(id)`: on confirmation, the profiles without `id`; the default cleared only when it was `id`. */
  function DeleteApp<R>(s: Snapshot<R>, id: string, confirmed: bool): (r: Submission<R>)
    ensures r.Skipped? <==> !confirmed
    ensures r.Skipped? ==> r.reason == NotConfirmed
  {
    if !confirmed then Skipped(NotConfirmed)
    else
      Submit(s.(miniApps := Without(s.miniApps, id),
                defaultAppId := if s.defaultAppId == Some(id) then None else s.defaultAppId))
  }

  /** What `deleteApp` submits: the id no longer resolves, the others keep their order, the default
      becomes `null` exactly when it was the deleted id, other fields copied. */
  lemma DeleteAppSpec<R>(s: Snapshot<R>, id: string)
    ensures var n := DeleteApp(s, id, true).next;
      && FindApp(n.miniApps, id) == None
      && Ids(n.miniApps) == Ids(s.miniApps) - {id}
      && (s.defaultAppId == Some(id) ==> n.defaultAppId == None)
      && (s.defaultAppId != Some(id) ==> n.defaultAppId == s.defaultAppId)
      && n.rest == s.rest
      && (forall k :: 0 <= k < |s.miniApps| && UniqueIds(s.miniApps) && s.miniApps[k].id == id ==>
            n.miniApps == s.miniApps[..k] + s.miniApps[k + 1..])
      && (id !in Ids(s.miniApps) ==> n.miniApps == s.miniApps)
  {
    var n := DeleteApp(s, id, true).next;
    WithoutMembers(s.miniApps, id);
    forall k | 0 <= k < |s.miniApps| && UniqueIds(s.miniApps) && s.miniApps[k].id == id
      ensures n.miniApps == s.miniApps[..k] + s.miniApps[k + 1..]
    {
      WithoutExactlyOne(s.miniApps, k);
    }
    if id !in Ids(s.miniApps) {
      forall i | 0 <= i < |s.miniApps| ensures s.miniApps[i].id != id {
        assert s.miniApps[i] in s.miniApps;
      }
      WithoutAbsent(s.miniApps, id);
    }
  }

  lemma UniqueSubsequence(apps: seq<MiniAppConfig>, id: string)
    requires UniqueIds(apps)
    ensures UniqueIds(Without(apps, id))
  {
    if apps != [] {
      UniqueSubsequence(apps[1..], id);
      var rest := Without(apps[1..], id);
      WithoutMembers(apps[1..], id);
      forall a | a in rest ensures a.id != apps[0].id {
        var i :| 0 <= i < |apps[1..]| && apps[1..][i] == a;
      }
    }
  }

  /** Deleting keeps ids unique and the default resolving. */
  lemma DeleteAppKeepsInvariant<R>(s: Snapshot<R>, id: string)
    requires Invariant(s)
    ensures Invariant(DeleteApp(s, id, true).next)
  {
    DeleteAppSpec(s, id);
    UniqueSubsequence(s.miniApps, id);
  }

  /** `setDefaultApp(id)`: the default becomes exactly `id`, `""` included. */
  function SetDefaultApp<R>(s: Snapshot<R>, id: string): (r: Snapshot<R>)
    ensures r.defaultAppId == Some(id) && r.miniApps == s.miniApps && r.rest == s.rest
  {
    s.(defaultAppId := Some(id))
  }

  /** Setting the same default twice is the same as setting it once. */
  lemma SetDefaultIdempotent<R>(s: Snapshot<R>, id: string)
    ensures SetDefaultApp(SetDefaultApp(s, id), id) == SetDefaultApp(s, id)
  {
  }

  /** The star button of a profile row: un-star the default (store `""`) or make `app` the default. */
  function ToggleDefault<R>(s: Snapshot<R>, app: MiniAppConfig): (r: Snapshot<R>)
    ensures r.miniApps == s.miniApps && r.rest == s.rest
    ensures r.defaultAppId == if s.defaultAppId == Some(app.id) then Some("") else Some(app.id)
  {
    if s.defaultAppId == Some(app.id) then SetDefaultApp(s, "") else SetDefaultApp(s, app.id)
  }

  /** Toggling the star of a stored profile keeps the default resolving. */
  lemma ToggleKeepsInvariant<R>(s: Snapshot<R>, app: MiniAppConfig)
    requires Invariant(s) && app in s.miniApps
    ensures Invariant(ToggleDefault(s, app))
  {
  }

  /** An un-starred default (`""`) counts as no default: the next add becomes the default. */
  lemma UnstarredThenAdd<R>(s: Snapshot<R>, form: Form, freshId: string, now: int)
    requires s.defaultAppId == Some("") && Complete(form)
    ensures AddApp(s, form, freshId, now).next.defaultAppId == Some(freshId)
  {
  }
}
