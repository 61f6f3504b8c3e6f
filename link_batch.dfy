/** The front end of the link batch, shared verbatim by UrlLinkTool.tsx and App.tsx: the item-list
    editor, the checks `generateUrlLinks` makes before calling the back end, and `copyAllLinks`. */
module LinkBatch {
  import opened Wrappers
  import opened Text
  import opened CredentialStore

  /** One page to link to (`ShortLinkItem`). */
  datatype ShortLinkItem = ShortLinkItem(path: string, query: string)

  /** The field `updateItem` writes (`keyof ShortLinkItem`). */
  datatype Field = Path | Query

  /** One generated link (`UrlLinkResult`). */
  datatype UrlLinkResult = UrlLinkResult(path: string, query: string, link: string, errMsg: string)

  const BlankItem: ShortLinkItem := ShortLinkItem("", "")

  /** `addItem`: one blank row at the end. */
  function AddItem(items: seq<ShortLinkItem>): (r: seq<ShortLinkItem>)
    ensures |r| == |items| + 1 && r[..|items|] == items && r[|items|] == BlankItem
  {
    items + [BlankItem]
  }

  /** `items.filter((_, i) => i !== index)`. */
  function DropPosition(items: seq<ShortLinkItem>, index: int): (r: seq<ShortLinkItem>)
    ensures 0 <= index < |items| ==> r == items[..index] + items[index + 1..]
    ensures !(0 <= index < |items|) ==> r == items
  {
    if items == [] then []
    else
      var rest := DropPosition(items[1..], index - 1);
      assert 0 < index < |items| ==> items[1..][..index - 1] + items[1..][index..] == items[1..index] + items[index + 1..];
      assert 0 < index < |items| ==> [items[0]] + items[1..index] == items[..index];
      (if index == 0 then [] else [items[0]]) + rest
  }

  /** `removeItem(index)`: drops row `index`, but never the last remaining row. */
  function RemoveItem(items: seq<ShortLinkItem>, index: int): (r: seq<ShortLinkItem>)
    ensures |items| <= 1 ==> r == items
    ensures |items| > 1 && 0 <= index < |items| ==> r == items[..index] + items[index + 1..]
    ensures |items| > 1 && !(0 <= index < |items|) ==> r == items
    ensures items != [] ==> r != []
  {
    if |items| > 1 then DropPosition(items, index) else items
  }

  function SetField(item: ShortLinkItem, field: Field, value: string): ShortLinkItem {
    match field
    case Path => item.(path := value)
    case Query => item.(query := value)
  }

  /** `updateItem(index, field, value)`: only that field of row `index` changes. */
  function UpdateItem(items: seq<ShortLinkItem>, index: nat, field: Field, value: string): (r: seq<ShortLinkItem>)
    requires index < |items|
    ensures |r| == |items|
    ensures forall i :: 0 <= i < |items| && i != index ==> r[i] == items[i]
    ensures field == Path ==> r[index].path == value && r[index].query == items[index].query
    ensures field == Query ==> r[index].query == value && r[index].path == items[index].path
  {
    items[index := SetField(items[index], field, value)]
  }

  /** `items.filter((item) => item.path.trim() !== "")`. */
  function ValidItems(items: seq<ShortLinkItem>): (r: seq<ShortLinkItem>)
    ensures |r| <= |items|
    ensures forall i :: 0 <= i < |r| ==> !IsBlank(r[i].path)
  {
    if items == [] then []
    else (if IsBlank(items[0].path) then [] else [items[0]]) + ValidItems(items[1..])
  }

  /** The filter distributes over concatenation: it keeps the kept rows in their original order. */
  lemma {:induction false} ValidItemsAppend(a: seq<ShortLinkItem>, b: seq<ShortLinkItem>)
    ensures ValidItems(a + b) == ValidItems(a) + ValidItems(b)
  {
    if a != [] {
      ValidItemsAppend(a[1..], b);
      assert (a + b)[1..] == a[1..] + b;
    } else {
      assert a + b == b;
    }
  }

  /** Nothing is kept exactly when every path is blank. */
  lemma {:induction false} ValidItemsEmptyIff(items: seq<ShortLinkItem>)
    ensures ValidItems(items) == [] <==> forall i :: 0 <= i < |items| ==> IsBlank(items[i].path)
  {
    if items != [] {
      ValidItemsEmptyIff(items[1..]);
      assert forall i :: 1 <= i < |items| ==> items[i] == items[1..][i - 1];
    }
  }

  /** What one `generate_wechat_urllinks` invocation carries. */
  datatype LinkRequest = LinkRequest(appid: string, secret: string, envVersion: string, items: seq<ShortLinkItem>)

  /** How `generateUrlLinks` proceeds: one of its two early alerts, or the back-end call. */
  datatype Plan =
    | NoAppSelected   // alert "请选择一个小程序"
    | NoValidPath     // alert "请至少填写一个路径"
    | Call(request: LinkRequest)

  /** The checks before the call: a profile must be selected, and at least one path non-blank;
      the call carries the selected profile's credentials and only the non-blank-path rows. */
  function PlanGeneration(selected: Option<MiniAppConfig>, envVersion: string, items: seq<ShortLinkItem>): (p: Plan)
    ensures p.NoAppSelected? <==> selected.None?
    ensures p.NoValidPath? <==> selected.Some? && forall i :: 0 <= i < |items| ==> IsBlank(items[i].path)
    ensures p.Call? ==>
      && p.request == LinkRequest(selected.value.appid, selected.value.secret, envVersion, ValidItems(items))
      && p.request.items != []
  {
    ValidItemsEmptyIff(items);
    if selected.None? then NoAppSelected
    else
      var valid := ValidItems(items);
      if |valid| == 0 then NoValidPath
      else Call(LinkRequest(selected.value.appid, selected.value.secret, envVersion, valid))
  }

  /** What one result contributes to the copied links: its link when it is non-empty (truthy). */
  function Kept(x: UrlLinkResult): seq<string> {
    if x.link == "" then [] else [x.link]
  }

  /** `results.filter((r) => r.link).map((r) => r.link)`. */
  function Links(results: seq<UrlLinkResult>): (r: seq<string>)
    ensures forall i :: 0 <= i < |r| ==> r[i] != ""
    ensures |r| <= |results|
  {
    if results == [] then []
    else Kept(results[0]) + Links(results[1..])
  }

  lemma {:induction false} LinksEmptyIff(results: seq<UrlLinkResult>)
    ensures Links(results) == [] <==> forall i :: 0 <= i < |results| ==> results[i].link == ""
  {
    if results != [] {
      LinksEmptyIff(results[1..]);
      assert forall i :: 1 <= i < |results| ==> results[i] == results[1..][i - 1];
    }
  }

  /** The filter distributes over concatenation: the links of `a + b` are those of `a`, then those of `b`. */
  lemma {:induction false} LinksAppend(a: seq<UrlLinkResult>, b: seq<UrlLinkResult>)
    ensures Links(a + b) == Links(a) + Links(b)
  {
    if a != [] {
      LinksAppend(a[1..], b);
      assert (a + b)[1..] == a[1..] + b;
    } else {
      assert a + b == b;
    }
  }

  /** Every non-empty link is kept, in its place: after the links of the results before it and
      before those of the results after it. An empty link is dropped. */
  lemma LinksAround(results: seq<UrlLinkResult>, i: nat)
    requires i < |results|
    ensures Links(results) == Links(results[..i]) + Kept(results[i]) + Links(results[i + 1..])
  {
    var before, after := results[..i], results[i + 1..];
    SplitAround(results, i);
    LinksAppend(before, [results[i]] + after);
    LinksCons(results[i], after);
  }

  lemma SplitAround<T>(s: seq<T>, i: nat)
    requires i < |s|
    ensures s == s[..i] + ([s[i]] + s[i + 1..])
  {
    assert s == s[..i] + ([s[i]] + s[i + 1..]);
  }

  lemma LinksCons(x: UrlLinkResult, rest: seq<UrlLinkResult>)
    ensures Links([x] + rest) == Kept(x) + Links(rest)
  {
    assert ([x] + rest)[1..] == rest;
  }

  /** Every kept link comes from some result. */
  lemma {:induction false} LinksFromResults(results: seq<UrlLinkResult>, k: nat)
    requires k < |Links(results)|
    ensures exists i :: 0 <= i < |results| && results[i].link == Links(results)[k]
  {
    if results[0].link == "" {
      LinksFromResults(results[1..], k);
      var i :| 0 <= i < |results[1..]| && results[1..][i].link == Links(results[1..])[k];
      assert results[i + 1].link == Links(results)[k];
    } else if k > 0 {
      LinksFromResults(results[1..], k - 1);
      var i :| 0 <= i < |results[1..]| && results[1..][i].link == Links(results[1..])[k - 1];
      assert results[i + 1].link == Links(results)[k];
    } else {
      assert results[0].link == Links(results)[0];
    }
  }

  /** `copyAllLinks`: the text put on the clipboard, or nothing when it would be empty. */
  function CopyAllLinks(results: seq<UrlLinkResult>): (clip: Option<string>)
    ensures clip.None? <==> forall i :: 0 <= i < |results| ==> results[i].link == ""
    ensures clip.Some? ==> clip.value != ""
  {
    LinksEmptyIff(results);
    JoinEmptyIff(Links(results), "\n");
    var all := Join(Links(results), "\n");
    if all == "" then None else Some(all)
  }

  /** The copied text, split at line breaks, gives back exactly the non-empty links in result order,
      provided no link itself contains a line break. */
  lemma CopyAllLinksRoundTrip(results: seq<UrlLinkResult>)
    requires forall i :: 0 <= i < |results| ==> '\n' !in results[i].link
    requires CopyAllLinks(results).Some?
    ensures Split(CopyAllLinks(results).value, '\n') == Links(results)
  {
    var links := Links(results);
    forall k | 0 <= k < |links| ensures '\n' !in links[k] {
      LinksFromResults(results, k);
    }
    SplitJoin(links, '\n');
  }
}
