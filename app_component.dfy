/** The top-level component of App.tsx as far as the profile store goes: the settings it shows, the
    selected profile and the add/edit form. Its link-tool state and handlers are the same code as
    UrlLinkTool.tsx and are modelled by the UrlLinkTool class. */
module AppComponent {
  import opened Wrappers
  import opened CredentialStore

  /** The snapshot App.tsx keeps: profiles and default only. */
  type AppSettings = Snapshot<()>

  class App {
    var settings: AppSettings
    var selectedAppId: string
    var form: Form
    var editing: Option<MiniAppConfig>
    var showAddForm: bool

    constructor ()
      ensures settings == Snapshot([], None, ()) && selectedAppId == ""
      ensures form == EmptyForm && editing.None? && !showAddForm
    {
      settings := Snapshot([], None, ());
      selectedAppId := "";
      form := EmptyForm;
      editing := None;
      showAddForm := false;
    }

    /** `selectedApp`: the profile the selector points at, if any. */
    function SelectedApp(): (r: Option<MiniAppConfig>)
      reads this
      ensures r.None? <==> selectedAppId !in Ids(settings.miniApps)
      ensures r.Some? ==> r.value in settings.miniApps && r.value.id == selectedAppId
    {
      FindApp(settings.miniApps, selectedAppId)
    }

    /** `loadSettings`: `loaded` is what `load_settings` settles to. A truthy default becomes the selection. */
    method LoadSettings(loaded: Result<AppSettings>)
      modifies this`settings, this`selectedAppId
      ensures loaded.Err? ==> settings == old(settings) && selectedAppId == old(selectedAppId)
      ensures loaded.Ok? ==> settings == loaded.value
      ensures loaded.Ok? ==>
        selectedAppId == (if Truthy(loaded.value.defaultAppId) then loaded.value.defaultAppId.value else old(selectedAppId))
    {
      if loaded.Ok? {
        settings := loaded.value;
        if Truthy(loaded.value.defaultAppId) {
          selectedAppId := loaded.value.defaultAppId.value;
        }
      }
    }

    /** `saveSettings(next)`: `persisted` is what `save_settings` settles to. The in-memory settings
        change only after the write succeeded; on failure the last committed snapshot stays. */
    method SaveSettings(next: AppSettings, persisted: Result<()>)
      modifies this`settings
      ensures settings == if persisted.Ok? then next else old(settings)
    {
      if persisted.Ok? {
        settings := next;
      }
    }

    /** `addApp`. `saved` is the snapshot handed to `save_settings`, `None` when nothing was persisted.
        The form is reset once the save was attempted, whatever its outcome. */
    method AddApp(freshId: string, now: int, persisted: Result<()>) returns (saved: Option<AppSettings>)
      modifies this`settings, this`form, this`showAddForm
      ensures var sub := CredentialStore.AddApp(old(settings), old(form), freshId, now);
        saved == if sub.Submit? then Some(sub.next) else None
      ensures saved.None? ==> settings == old(settings) && form == old(form) && showAddForm == old(showAddForm)
      ensures saved.Some? ==> settings == (if persisted.Ok? then saved.value else old(settings))
      ensures saved.Some? ==> form == EmptyForm && !showAddForm
      ensures Invariant(old(settings)) && freshId !in Ids(old(settings).miniApps) ==> Invariant(settings)
    {
      var sub := CredentialStore.AddApp(settings, form, freshId, now);
      if sub.Skipped? {
        return None;
      }
      if Invariant(settings) && freshId !in Ids(settings.miniApps) {
        AddAppKeepsInvariant(settings, form, freshId, now);
      }
      saved := Some(sub.next);
      SaveSettings(sub.next, persisted);
      form := EmptyForm;
      showAddForm := false;
    }

    /** `startEdit(app)`. */
    method StartEdit(app: MiniAppConfig)
      modifies this`editing, this`form
      ensures editing == Some(app) && form == Form(app.name, app.appid, app.secret)
    {
      editing := Some(app);
      form := Form(app.name, app.appid, app.secret);
    }

    /** `updateApp`: nothing happens unless a profile is being edited and the form is complete. */
    method UpdateApp(persisted: Result<()>) returns (saved: Option<AppSettings>)
      modifies this`settings, this`form, this`editing
      ensures var sub := CredentialStore.UpdateApp(old(settings), old(editing), old(form));
        saved == if sub.Submit? then Some(sub.next) else None
      ensures saved.None? ==> settings == old(settings) && form == old(form) && editing == old(editing)
      ensures saved.Some? ==> settings == (if persisted.Ok? then saved.value else old(settings))
      ensures saved.Some? ==> form == EmptyForm && editing.None?
      ensures Invariant(old(settings)) ==> Invariant(settings)
    {
      var sub := CredentialStore.UpdateApp(settings, editing, form);
      if sub.Skipped? {
        return None;
      }
      if Invariant(settings) {
        UpdateAppKeepsInvariant(settings, editing.value, form);
      }
      saved := Some(sub.next);
      SaveSettings(sub.next, persisted);
      editing := None;
      form := EmptyForm;
    }

    /** `deleteApp(id)`; `confirmed` is the answer to `confirm`. The selection is cleared when it was
        `id`, even if the save failed. */
    method DeleteApp(id: string, confirmed: bool, persisted: Result<()>) returns (saved: Option<AppSettings>)
      modifies this`settings, this`selectedAppId
      ensures saved == if confirmed then Some(CredentialStore.DeleteApp(old(settings), id, true).next) else None
      ensures saved.None? ==> settings == old(settings) && selectedAppId == old(selectedAppId)
      ensures saved.Some? ==> settings == (if persisted.Ok? then saved.value else old(settings))
      ensures saved.Some? ==> selectedAppId == if old(selectedAppId) == id then "" else old(selectedAppId)
      ensures Invariant(old(settings)) ==> Invariant(settings)
    {
      var sub := CredentialStore.DeleteApp(settings, id, confirmed);
      if sub.Skipped? {
        return None;
      }
      if Invariant(settings) {
        DeleteAppKeepsInvariant(settings, id);
      }
      saved := Some(sub.next);
      SaveSettings(sub.next, persisted);
      if selectedAppId == id {
        selectedAppId := "";
      }
    }

    /** `setDefaultApp(id)`: stores exactly `id` and selects it, even if the save failed. */
    method SetDefaultApp(id: string, persisted: Result<()>) returns (saved: AppSettings)
      modifies this`settings, this`selectedAppId
      ensures saved == CredentialStore.SetDefaultApp(old(settings), id)
      ensures settings == if persisted.Ok? then saved else old(settings)
      ensures selectedAppId == id
    {
      saved := CredentialStore.SetDefaultApp(settings, id);
      SaveSettings(saved, persisted);
      selectedAppId := id;
    }

    /** The star button of a profile row: un-starring stores `""` and so also clears the selection. */
    method ToggleDefault(app: MiniAppConfig, persisted: Result<()>) returns (saved: AppSettings)
      modifies this`settings, this`selectedAppId
      ensures saved == CredentialStore.ToggleDefault(old(settings), app)
      ensures settings == if persisted.Ok? then saved else old(settings)
      ensures selectedAppId == if old(settings).defaultAppId == Some(app.id) then "" else app.id
      ensures Invariant(old(settings)) && app in old(settings).miniApps ==> Invariant(settings)
    {
      if Invariant(settings) && app in settings.miniApps {
        ToggleKeepsInvariant(settings, app);
      }
      if settings.defaultAppId == Some(app.id) {
        saved := SetDefaultApp("", persisted);
      } else {
        saved := SetDefaultApp(app.id, persisted);
      }
    }
  }
}
