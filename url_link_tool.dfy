/** The URL Link tool component (UrlLinkTool.tsx; App.tsx holds the same state and handlers):
    its rows, its last results and its loading flag, updated by the handlers. */
module UrlLinkTool {
  import opened Wrappers
  import opened CredentialStore
  import opened LinkBatch

  class UrlLinkTool {
    var items: seq<ShortLinkItem>
    var results: seq<UrlLinkResult>
    var loading: bool
    var envVersion: string

    /** The editor always shows at least one row. */
    ghost predicate Valid()
      reads this
    {
      items != []
    }

    constructor ()
      ensures Valid()
      ensures items == [BlankItem] && results == [] && !loading && envVersion == "release"
    {
      items := [BlankItem];
      results := [];
      loading := false;
      envVersion := "release";
    }

    /** `addItem`. */
    method AddItem()
      requires Valid()
      modifies this`items
      ensures Valid() && items == old(items) + [BlankItem]
    {
      items := LinkBatch.AddItem(items);
    }

    /** `removeItem(index)`: never removes the only row. */
    method RemoveItem(index: int)
      requires Valid()
      modifies this`items
      ensures Valid() && items == LinkBatch.RemoveItem(old(items), index)
    {
      items := LinkBatch.RemoveItem(items, index);
    }

    /** `updateItem(index, field, value)`: a copy of the rows with one row rewritten. */
    method UpdateItem(index: nat, field: Field, value: string)
      requires Valid() && index < |items|
      modifies this`items
      ensures Valid() && items == LinkBatch.UpdateItem(old(items), index, field, value)
    {
      items := LinkBatch.UpdateItem(items, index, field, value);
    }

    /** The environment `<select>`: passed through to the back end unchecked. */
    method SetEnvVersion(value: string)
      modifies this`envVersion
      ensures envVersion == value
    {
      envVersion := value;
    }

    /** The generate button is enabled unless a request is in flight or no profile is selected. */
    function GenerateEnabled(selectedAppId: string): (b: bool)
      reads this
      ensures b <==> !loading && selectedAppId != ""
    {
      !loading && selectedAppId != ""
    }

    /** `generateUrlLinks`. `reply` is what the back-end invocation settles to; it is used only when
        the call is made. Results are replaced on success only; the rows are never touched. */
    method GenerateUrlLinks(selectedAppId: string, apps: seq<MiniAppConfig>, reply: Result<seq<UrlLinkResult>>)
      returns (plan: Plan)
      modifies this`results, this`loading
      ensures plan == PlanGeneration(FindApp(apps, selectedAppId), envVersion, items)
      ensures !plan.Call? ==> results == old(results) && loading == old(loading)
      ensures plan.Call? ==> !loading && results == if reply.Ok? then reply.value else old(results)
    {
      plan := PlanGeneration(FindApp(apps, selectedAppId), envVersion, items);
      if !plan.Call? {
        return;
      }
      loading := true;
      if reply.Ok? {
        results := reply.value;
      }
      loading := false;
    }
  }
}
