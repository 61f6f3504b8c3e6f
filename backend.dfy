/** The Tauri back end of lib.rs: loading the settings file, the access-token cache in front of the
    token endpoint, and the batch loop of `generate_wechat_urllinks`. */
module Backend {
  import opened Wrappers
  import opened Text
  import opened Host
  import opened CredentialStore
  import opened LinkBatch

  /** `load_settings`: a missing file means no profiles and no default. */
  function LoadSettings(file: FileState<Snapshot<()>>): (r: Result<Snapshot<()>>)
    ensures file.Missing? ==> r == Ok(Snapshot([], None, ()))
    ensures file.Holds? ==> r == Ok(file.value)
    ensures file.Unreadable? ==> r == Err("读取设置失败: " + file.detail)
    ensures file.Unparseable? ==> r == Err("解析设置失败: " + file.detail)
  {
    match file
    case Missing => Ok(Snapshot([], None, ()))
    case Unreadable(d) => Err("读取设置失败: " + d)
    case Unparseable(d) => Err("解析设置失败: " + d)
    case Holds(s) => Ok(s)
  }

  /** One cached access token (`TokenCache`, and `TokenCacheFile` on disk); times in Unix seconds. */
  datatype TokenCache = TokenCache(appid: string, token: string, expiresAt: nat)

  /** The token endpoint's answer (`WechatTokenResponse`). */
  datatype TokenResponse = TokenResponse(accessToken: Option<string>, expiresIn: Option<nat>, errmsg: Option<string>)

  /** The link endpoint's answer (`WechatUrlLinkResponse`). */
  datatype UrlLinkResponse = UrlLinkResponse(urlLink: Option<string>, errMsg: Option<string>)

  /** The body of the request to the `stable_token` endpoint: grant type `client_credential`, appid and secret. */
  datatype TokenCall = TokenCall(appid: string, secret: string)

  /** One request to the link endpoint: the token in the URL, the item and environment in the body. */
  datatype LinkCall = LinkCall(accessToken: string, path: string, query: string, envVersion: string)

  /** A cached token is reused only while it has more than this many seconds left. */
  const RefreshMargin: nat := 60

  /** The lifetime assumed when the token endpoint gives none. */
  const DefaultExpiresIn: nat := 7200

  /** The freshness rule applied to the memory cache and to the disk cache alike. */
  predicate Usable(c: TokenCache, appid: string, now: nat) {
    c.appid == appid && c.expiresAt > now + RefreshMargin
  }

  /** `u64::saturating_sub`. */
  function SaturatingSub(a: nat, b: nat): (r: nat)
    ensures r <= a
    ensures a >= b ==> r + b == a
    ensures a < b ==> r == 0
  {
    if a >= b then a - b else 0
  }

  /** The expiry stored for a new token: its lifetime (7200 s when absent) less 60 s, never before now. */
  function ExpiresAt(now: nat, expiresIn: Option<nat>): (t: nat)
    ensures now <= t <= now + expiresIn.GetOr(DefaultExpiresIn)
    ensures expiresIn.GetOr(DefaultExpiresIn) >= RefreshMargin ==>
      t + RefreshMargin == now + expiresIn.GetOr(DefaultExpiresIn)
  {
    now + SaturatingSub(expiresIn.GetOr(DefaultExpiresIn), RefreshMargin)
  }

  /** A freshly fetched token would be reused from the cache at the same instant exactly when its
      lifetime exceeds 120 s; the default lifetime qualifies. */
  lemma FreshTokenReusable(appid: string, token: string, now: nat, expiresIn: Option<nat>)
    ensures Usable(TokenCache(appid, token, ExpiresAt(now, expiresIn)), appid, now)
      <==> expiresIn.GetOr(DefaultExpiresIn) > 2 * RefreshMargin
    ensures expiresIn.None? ==> Usable(TokenCache(appid, token, ExpiresAt(now, expiresIn)), appid, now)
  {
  }

  /** `load_token_cache`: any failure to read or parse the file counts as no cache. */
  function ReadTokenFile(f: FileState<TokenCache>): (c: Option<TokenCache>)
    ensures c.Some? <==> f.Holds?
    ensures c.Some? ==> c.value == f.value
  {
    if f.Holds? then Some(f.value) else None
  }

  /** Where the token of one `get_wechat_token_cached` call comes from. */
  datatype TokenStep =
    | FromMemory(token: string)
    | FromDisk(entry: TokenCache)
    | Fetched(entry: TokenCache)
    | Refused(error: string)

  const TokenRequestPrefix := "请求 token 失败: "
  const TokenReadPrefix := "读取 token 响应失败: "
  const TokenParsePrefix := "解析 token 响应失败: "
  const TokenRefusedPrefix := "获取 token 失败: "
  const UnknownError := "未知错误"

  /** The decision of `get_wechat_token_cached`: memory first, then disk, then the endpoint. */
  function SelectToken(memory: Option<TokenCache>, disk: Option<TokenCache>, appid: string, now: nat,
                       reply: Exchange<TokenResponse>): (s: TokenStep)
    ensures s.FromMemory? <==> memory.Some? && Usable(memory.value, appid, now)
    ensures s.FromMemory? ==> s.token == memory.value.token
    ensures s.FromDisk? <==> !s.FromMemory? && disk.Some? && Usable(disk.value, appid, now)
    ensures s.FromDisk? ==> s.entry == disk.value
    ensures s.Fetched? <==> !s.FromMemory? && !s.FromDisk? && reply.Delivered? && reply.body.accessToken.Some?
    ensures s.Fetched? ==>
      s.entry == TokenCache(appid, reply.body.accessToken.value, ExpiresAt(now, reply.body.expiresIn))
    ensures s.Refused? && reply.Delivered? ==>
      s.error == TokenRefusedPrefix + reply.body.errmsg.GetOr(UnknownError)
    ensures s.Refused? && !reply.Delivered? ==>
      s.error == FailureText(reply, TokenRequestPrefix, TokenReadPrefix, TokenParsePrefix)
  {
    if memory.Some? && Usable(memory.value, appid, now) then FromMemory(memory.value.token)
    else if disk.Some? && Usable(disk.value, appid, now) then FromDisk(disk.value)
    else if !reply.Delivered? then Refused(FailureText(reply, TokenRequestPrefix, TokenReadPrefix, TokenParsePrefix))
    else match reply.body.accessToken
      case Some(t) => Fetched(TokenCache(appid, t, ExpiresAt(now, reply.body.expiresIn)))
      case None => Refused(TokenRefusedPrefix + reply.body.errmsg.GetOr(UnknownError))
  }

  /** The token a successful step yields. */
  function StepToken(s: TokenStep): string
    requires !s.Refused?
  {
    match s
    case FromMemory(t) => t
    case FromDisk(e) => e.token
    case Fetched(e) => e.token
  }

  /** A token handed out was issued for the requested appid: from a cache entry for that appid with
      more than 60 s left, or fresh from the endpoint. */
  lemma TokenBelongsToAppid(memory: Option<TokenCache>, disk: Option<TokenCache>, appid: string, now: nat,
                            reply: Exchange<TokenResponse>)
    ensures var s := SelectToken(memory, disk, appid, now, reply);
      !s.Refused? ==>
        || (memory.Some? && Usable(memory.value, appid, now) && StepToken(s) == memory.value.token)
        || (disk.Some? && Usable(disk.value, appid, now) && StepToken(s) == disk.value.token)
        || (reply.Delivered? && reply.body.accessToken == Some(StepToken(s)))
  {
  }

  const LinkRequestPrefix := "请求失败: "
  const LinkReadPrefix := "读取响应失败: "
  const LinkParsePrefix := "解析响应失败: "

  /** One item's result: path and query echoed, the link or `""`, the message or `"ok"`. */
  function ResultFor(item: ShortLinkItem, resp: UrlLinkResponse): (r: UrlLinkResult)
    ensures r.path == item.path && r.query == item.query
    ensures r.link == resp.urlLink.GetOr("") && r.errMsg == resp.errMsg.GetOr("ok")
  {
    UrlLinkResult(item.path, item.query, resp.urlLink.GetOr(""), resp.errMsg.GetOr("ok"))
  }

  function LinkFailure(x: Exchange<UrlLinkResponse>): string
    requires !x.Delivered?
  {
    FailureText(x, LinkRequestPrefix, LinkReadPrefix, LinkParsePrefix)
  }

  /** The outcome of the item loop: the first failed exchange aborts the whole batch. */
  function Batch(items: seq<ShortLinkItem>, replies: seq<Exchange<UrlLinkResponse>>): (r: Result<seq<UrlLinkResult>>)
    requires |replies| == |items|
    ensures r.Ok? ==> |r.value| == |items|
  {
    if items == [] then Ok([])
    else if !replies[0].Delivered? then Err(LinkFailure(replies[0]))
    else match Batch(items[1..], replies[1..])
      case Ok(rest) => Ok([ResultFor(items[0], replies[0].body)] + rest)
      case Err(e) => Err(e)
  }

  /** How many link requests the loop issues: up to and including the first failed one. */
  function Attempted(replies: seq<Exchange<UrlLinkResponse>>): (n: nat)
    ensures n <= |replies|
  {
    if replies == [] then 0
    else if !replies[0].Delivered? then 1
    else 1 + Attempted(replies[1..])
  }

  /** The requests for `items`, in order, all with the same token and environment. */
  function Calls(token: string, envVersion: string, items: seq<ShortLinkItem>): (cs: seq<LinkCall>)
    ensures |cs| == |items|
    ensures forall i :: 0 <= i < |items| ==>
      cs[i] == LinkCall(token, items[i].path, items[i].query, envVersion)
  {
    seq(|items|, i requires 0 <= i < |items| => LinkCall(token, items[i].path, items[i].query, envVersion))
  }

  /** When every exchange delivered, the batch succeeds with one result per item, in item order. */
  lemma {:induction false} BatchAllDelivered(items: seq<ShortLinkItem>, replies: seq<Exchange<UrlLinkResponse>>)
    requires |replies| == |items|
    requires forall i :: 0 <= i < |replies| ==> replies[i].Delivered?
    ensures Batch(items, replies).Ok?
    ensures Batch(items, replies).value ==
      seq(|items|, i requires 0 <= i < |items| => ResultFor(items[i], replies[i].body))
    ensures Attempted(replies) == |items|
  {
    if items != [] {
      BatchAllDelivered(items[1..], replies[1..]);
    }
  }

  /** When exchange `k` is the first to fail, the batch fails with its message and no results,
      after issuing `k + 1` requests. */
  lemma {:induction false} BatchFirstFailure(items: seq<ShortLinkItem>, replies: seq<Exchange<UrlLinkResponse>>, k: nat)
    requires |replies| == |items| && k < |replies|
    requires forall i :: 0 <= i < k ==> replies[i].Delivered?
    requires !replies[k].Delivered?
    ensures Batch(items, replies) == Err(LinkFailure(replies[k]))
    ensures Attempted(replies) == k + 1
  {
    if k > 0 {
      BatchFirstFailure(items[1..], replies[1..], k - 1);
    }
  }

  /** A successful batch gives one result per item, in order, echoing path and query, with
      `""` for a missing link and `"ok"` for a missing message. */
  lemma {:induction false} BatchOkShape(items: seq<ShortLinkItem>, replies: seq<Exchange<UrlLinkResponse>>)
    requires |replies| == |items|
    ensures Batch(items, replies).Ok? <==> forall i :: 0 <= i < |replies| ==> replies[i].Delivered?
    ensures Batch(items, replies).Ok? ==>
      var rs := Batch(items, replies).value;
      && |rs| == |items|
      && forall i :: 0 <= i < |items| ==>
           && rs[i].path == items[i].path && rs[i].query == items[i].query
           && rs[i].link == replies[i].body.urlLink.GetOr("")
           && rs[i].errMsg == replies[i].body.errMsg.GetOr("ok")
  {
    if items != [] && replies[0].Delivered? {
      BatchOkShape(items[1..], replies[1..]);
      if Batch(items, replies).Ok? {
        var rs := Batch(items, replies).value;
        assert rs == [ResultFor(items[0], replies[0].body)] + Batch(items[1..], replies[1..]).value;
        forall i | 0 < i < |items|
          ensures rs[i] == Batch(items[1..], replies[1..]).value[i - 1]
        {
        }
      }
      assert (forall i :: 0 <= i < |replies| ==> replies[i].Delivered?) <==>
             (forall i :: 0 <= i < |replies[1..]| ==> replies[1..][i].Delivered?) by {
        if forall i :: 0 <= i < |replies[1..]| ==> replies[1..][i].Delivered? {
          forall i | 0 < i < |replies| ensures replies[i].Delivered? {
            assert replies[i] == replies[1..][i - 1];
          }
        }
      }
    }
  }

  /** The loop of `generate_wechat_urllinks` once the token is known: one request per item in order,
      a result pushed per delivered exchange, and an early return on the first failure. */
  method RunBatch(token: string, envVersion: string, items: seq<ShortLinkItem>,
                  replies: seq<Exchange<UrlLinkResponse>>)
    returns (r: Result<seq<UrlLinkResult>>, calls: seq<LinkCall>)
    requires |replies| == |items|
    ensures r == Batch(items, replies)
    ensures calls == Calls(token, envVersion, items[..Attempted(replies)])
  {
    var results: seq<UrlLinkResult> := [];
    calls := [];
    var i := 0;
    while i < |items|
      invariant 0 <= i <= |items|
      invariant forall j :: 0 <= j < i ==> replies[j].Delivered?
      invariant results == seq(i, j requires 0 <= j < i => ResultFor(items[j], replies[j].body))
      invariant calls == Calls(token, envVersion, items[..i])
    {
      calls := calls + [LinkCall(token, items[i].path, items[i].query, envVersion)];
      assert calls == Calls(token, envVersion, items[..i + 1]);
      var reply := replies[i];
      if !reply.Delivered? {
        BatchFirstFailure(items, replies, i);
        r := Err(LinkFailure(reply));
        return;
      }
      results := results + [ResultFor(items[i], reply.body)];
      i := i + 1;
    }
    BatchAllDelivered(items, replies);
    assert items[..i] == items[..Attempted(replies)];
    r := Ok(results);
  }

  /** The global token cache (`TOKEN_CACHE`) and the token cache file it is backed by. */
  class TokenStore {
    var memory: Option<TokenCache>
    var disk: FileState<TokenCache>

    constructor (disk: FileState<TokenCache>)
      ensures memory.None? && this.disk == disk
    {
      memory := None;
      this.disk := disk;
    }

    /** `get_wechat_token_cached`. `reply` is the token endpoint's answer, used only when both
        caches miss; `diskWriteOk` says whether saving the token file succeeds (its failure is ignored). */
    method GetWechatTokenCached(appid: string, secret: string, now: nat, reply: Exchange<TokenResponse>,
                                diskWriteOk: bool)
      returns (r: Result<string>, request: Option<TokenCall>)
      modifies this
      ensures var s := SelectToken(old(memory), ReadTokenFile(old(disk)), appid, now, reply);
        && r == (if s.Refused? then Err(s.error) else Ok(StepToken(s)))
        && request == (if s.Fetched? || s.Refused? then Some(TokenCall(appid, secret)) else None)
        && memory == (match s
                      case FromDisk(e) => Some(e)
                      case Fetched(e) => Some(e)
                      case _ => old(memory))
        && disk == (if s.Fetched? && diskWriteOk then Holds(s.entry) else old(disk))
    {
      if memory.Some? && Usable(memory.value, appid, now) {
        return Ok(memory.value.token), None;
      }
      var fromDisk := ReadTokenFile(disk);
      if fromDisk.Some? && Usable(fromDisk.value, appid, now) {
        memory := Some(fromDisk.value);
        return Ok(fromDisk.value.token), None;
      }
      request := Some(TokenCall(appid, secret));
      if !reply.Delivered? {
        return Err(FailureText(reply, TokenRequestPrefix, TokenReadPrefix, TokenParsePrefix)), request;
      }
      match reply.body.accessToken {
        case Some(t) =>
          var entry := TokenCache(appid, t, ExpiresAt(now, reply.body.expiresIn));
          memory := Some(entry);
          if diskWriteOk {
            disk := Holds(entry);
          }
          r := Ok(t);
        case None =>
          r := Err(TokenRefusedPrefix + reply.body.errmsg.GetOr(UnknownError));
      }
    }

    /** `generate_wechat_urllinks`: a token failure aborts before any link request; otherwise the
        item loop runs with the token obtained. */
    method GenerateWechatUrllinks(appid: string, secret: string, envVersion: string, items: seq<ShortLinkItem>,
                                  now: nat, tokenReply: Exchange<TokenResponse>, diskWriteOk: bool,
                                  replies: seq<Exchange<UrlLinkResponse>>)
      returns (r: Result<seq<UrlLinkResult>>, tokenRequest: Option<TokenCall>, calls: seq<LinkCall>)
      requires |replies| == |items|
      modifies this
      ensures var s := SelectToken(old(memory), ReadTokenFile(old(disk)), appid, now, tokenReply);
        && tokenRequest == (if s.Fetched? || s.Refused? then Some(TokenCall(appid, secret)) else None)
        && memory == (match s
                      case FromDisk(e) => Some(e)
                      case Fetched(e) => Some(e)
                      case _ => old(memory))
        && disk == (if s.Fetched? && diskWriteOk then Holds(s.entry) else old(disk))
        && (s.Refused? ==> r == Err(s.error) && calls == [])
        && (!s.Refused? ==> r == Batch(items, replies)
                            && calls == Calls(StepToken(s), envVersion, items[..Attempted(replies)]))
    {
      var token;
      token, tokenRequest := GetWechatTokenCached(appid, secret, now, tokenReply, diskWriteOk);
      if token.Err? {
        return Err(token.error), tokenRequest, [];
      }
      r, calls := RunBatch(token.value, envVersion, items, replies);
    }
  }

  /** Two batches for the same appid at the same instant: once the first has obtained a token (from a
      cache, or fresh from the endpoint with a lifetime over 120 s), the second reuses the cached token
      and makes no token request. */
  method RepeatedBatchReusesToken(store: TokenStore, appid: string, secret: string, envVersion: string,
                                  items: seq<ShortLinkItem>, now: nat, tokenReply: Exchange<TokenResponse>,
                                  secondTokenReply: Exchange<TokenResponse>, diskWriteOk: bool,
                                  replies: seq<Exchange<UrlLinkResponse>>)
    returns (secondRequest: Option<TokenCall>)
    requires |replies| == |items|
    requires tokenReply.Delivered? ==> tokenReply.body.expiresIn.GetOr(DefaultExpiresIn) > 2 * RefreshMargin
    modifies store
    ensures !SelectToken(old(store.memory), ReadTokenFile(old(store.disk)), appid, now, tokenReply).Refused? ==>
      secondRequest.None?
  {
    ghost var first := SelectToken(store.memory, ReadTokenFile(store.disk), appid, now, tokenReply);
    var _, _, _ := store.GenerateWechatUrllinks(appid, secret, envVersion, items, now, tokenReply, diskWriteOk, replies);
    if first.Fetched? {
      FreshTokenReusable(appid, first.entry.token, now, tokenReply.body.expiresIn);
    }
    var _, request, _ := store.GenerateWechatUrllinks(appid, secret, envVersion, items, now, secondTokenReply,
                                                      diskWriteOk, replies);
    secondRequest := request;
  }

  /** End to end: when the front end sends its filtered rows and the batch succeeds, there is one
      result per non-blank-path row, in the rows' order, each with a non-blank path. */
  lemma GeneratedLinksFollowRows(selected: Option<MiniAppConfig>, envVersion: string, items: seq<ShortLinkItem>,
                                 replies: seq<Exchange<UrlLinkResponse>>)
    requires PlanGeneration(selected, envVersion, items).Call?
    requires |replies| == |ValidItems(items)|
    requires Batch(PlanGeneration(selected, envVersion, items).request.items, replies).Ok?
    ensures var rs := Batch(ValidItems(items), replies).value;
      && |rs| == |ValidItems(items)|
      && forall i :: 0 <= i < |rs| ==> rs[i].path == ValidItems(items)[i].path && !IsBlank(rs[i].path)
  {
    BatchOkShape(ValidItems(items), replies);
  }
}
