/** The HTTP handler of the token-management service, for the parts with logic of their own:
    listing a wallet's tokens (filters, then a clamped page), the status a failed transfer is
    answered with, and the CBDC type check of the by-type listing. */
module TokenHandler {
  import opened Common
  import opened Errors
  import opened TokenService

  const BadRequest := 400
  const NotFound := 404
  const Conflict := 409

  // ---------------------------------------------------------------------------------------
  // Query parameters

  const DefaultLimit := 100
  const MaxLimit := 1000

  /** The page size: the parsed `limit` when it lies in 1..1000, otherwise 100 (also when it
      does not parse, `None`). */
  function ClampLimit(parsed: Option<int>): (limit: int)
    ensures 1 <= limit <= MaxLimit
    ensures parsed.Some? && 1 <= parsed.value <= MaxLimit ==> limit == parsed.value
    ensures parsed.None? || parsed.value < 1 || parsed.value > MaxLimit ==> limit == DefaultLimit
  {
    if parsed.None? || parsed.value <= 0 || parsed.value > MaxLimit then DefaultLimit
    else parsed.value
  }

  /** The first position: the parsed `offset` when it is not negative, otherwise 0. */
  function ClampOffset(parsed: Option<int>): (offset: int)
    ensures offset >= 0
    ensures parsed.Some? && parsed.value >= 0 ==> offset == parsed.value
    ensures parsed.None? || parsed.value < 0 ==> offset == 0
  {
    if parsed.None? || parsed.value < 0 then 0 else parsed.value
  }

  // ---------------------------------------------------------------------------------------
  // Filters

  /** The tokens of `ts` that `keep` accepts, in their original order. */
  function Filter(ts: seq<Token>, keep: Token -> bool): (r: seq<Token>)
    ensures |r| <= |ts|
    ensures forall i :: 0 <= i < |r| ==> keep(r[i]) && r[i] in ts
  {
    if ts == [] then []
    else
      var kept := Filter(ts[..|ts| - 1], keep);
      if keep(ts[|ts| - 1]) then kept + [ts[|ts| - 1]] else kept
  }

  /** Every accepted token is kept. */
  lemma {:induction false} FilterComplete(ts: seq<Token>, keep: Token -> bool, t: Token)
    requires t in ts && keep(t)
    ensures t in Filter(ts, keep)
  {
    if t != ts[|ts| - 1] {
      var i :| 0 <= i < |ts| && ts[i] == t;
      assert ts[..|ts| - 1][i] == t;
      FilterComplete(ts[..|ts| - 1], keep, t);
    }
  }

  /** Filtering distributes over concatenation: the relative order of what is kept is the
      order of the input. */
  lemma {:induction false} FilterAppend(a: seq<Token>, b: seq<Token>, keep: Token -> bool)
    ensures Filter(a + b, keep) == Filter(a, keep) + Filter(b, keep)
    decreases |b|
  {
    if b == [] {
      assert a + b == a;
    } else {
      var init := b[..|b| - 1];
      assert (a + b)[..|a + b| - 1] == a + init;
      FilterAppend(a, init, keep);
    }
  }

  /** Two filters in a row keep what both accept, in the same order as one filter would. */
  lemma {:induction false} FilterTwice(ts: seq<Token>, p: Token -> bool, q: Token -> bool,
                                       both: Token -> bool)
    requires forall t :: both(t) == (p(t) && q(t))
    ensures Filter(Filter(ts, p), q) == Filter(ts, both)
  {
    if ts != [] {
      var init := ts[..|ts| - 1];
      var last := ts[|ts| - 1];
      FilterTwice(init, p, q, both);
      if p(last) {
        FilterAppend(Filter(init, p), [last], q);
        assert [last][..0] == [];
      }
    }
  }

  function HasStatus(status: string): Token -> bool {
    (t: Token) => StatusValue(t.status) == status
  }

  function HasCBDCType(cbdcType: string): Token -> bool {
    (t: Token) => t.cbdcType == cbdcType
  }

  /** The status filter (when given) and then the CBDC-type filter (when given). */
  function Selected(ts: seq<Token>, statusFilter: string, cbdcTypeFilter: string): seq<Token> {
    var byStatus := if statusFilter != "" then Filter(ts, HasStatus(statusFilter)) else ts;
    if cbdcTypeFilter != "" then Filter(byStatus, HasCBDCType(cbdcTypeFilter)) else byStatus
  }

  /** What the two filters let through: the tokens matching each filter that is given, as
      one combined filter over the wallet's tokens. */
  lemma SelectedMeaning(ts: seq<Token>, statusFilter: string, cbdcTypeFilter: string)
    ensures var keep := (t: Token) => (statusFilter == "" || StatusValue(t.status) == statusFilter)
                                      && (cbdcTypeFilter == "" || t.cbdcType == cbdcTypeFilter);
            Selected(ts, statusFilter, cbdcTypeFilter) == Filter(ts, keep)
  {
    var keep := (t: Token) => (statusFilter == "" || StatusValue(t.status) == statusFilter)
                              && (cbdcTypeFilter == "" || t.cbdcType == cbdcTypeFilter);
    if statusFilter != "" && cbdcTypeFilter != "" {
      FilterTwice(ts, HasStatus(statusFilter), HasCBDCType(cbdcTypeFilter), keep);
    } else if statusFilter != "" {
      FilterSame(ts, HasStatus(statusFilter), keep);
    } else if cbdcTypeFilter != "" {
      FilterSame(ts, HasCBDCType(cbdcTypeFilter), keep);
    } else {
      FilterAll(ts, keep);
    }
  }

  lemma {:induction false} FilterSame(ts: seq<Token>, p: Token -> bool, q: Token -> bool)
    requires forall t :: p(t) == q(t)
    ensures Filter(ts, p) == Filter(ts, q)
  {
    if ts != [] {
      FilterSame(ts[..|ts| - 1], p, q);
    }
  }

  lemma {:induction false} FilterAll(ts: seq<Token>, keep: Token -> bool)
    requires forall t :: keep(t)
    ensures Filter(ts, keep) == ts
  {
    if ts != [] {
      FilterAll(ts[..|ts| - 1], keep);
      assert ts[..|ts| - 1] + [ts[|ts| - 1]] == ts;
    }
  }

  /** One of the handler's filter loops. */
  method FilterTokens(ts: seq<Token>, keep: Token -> bool) returns (filtered: seq<Token>)
    ensures filtered == Filter(ts, keep)
  {
    filtered := [];
    var i := 0;
    while i < |ts|
      invariant 0 <= i <= |ts|
      invariant filtered == Filter(ts[..i], keep)
    {
      assert ts[..i + 1][..i] == ts[..i];
      if keep(ts[i]) {
        filtered := filtered + [ts[i]];
      }
      i := i + 1;
    }
    assert ts[..i] == ts;
  }

  // ---------------------------------------------------------------------------------------
  // Pagination

  /** `filtered[offset : min(offset+limit, total)]`, empty once the offset reaches the end. */
  function Paginate(filtered: seq<Token>, offset: nat, limit: nat): (page: seq<Token>)
    ensures |page| <= limit
    ensures offset >= |filtered| ==> page == []
    ensures offset < |filtered| ==>
              |page| == (if offset + limit <= |filtered| then limit else |filtered| - offset) &&
              forall i :: 0 <= i < |page| ==> page[i] == filtered[offset + i]
  {
    if offset >= |filtered| then []
    else if offset + limit > |filtered| then filtered[offset..]
    else filtered[offset..offset + limit]
  }

  /** Two consecutive pages together are the page of twice the size: walking the pages
      visits every selected token once, in order. */
  lemma ConsecutivePages(filtered: seq<Token>, offset: nat, limit: nat)
    ensures Paginate(filtered, offset, limit) + Paginate(filtered, offset + limit, limit) ==
            Paginate(filtered, offset, 2 * limit)
  {
    var whole := Paginate(filtered, offset, 2 * limit);
    var joined := Paginate(filtered, offset, limit) + Paginate(filtered, offset + limit, limit);
    assert |joined| == |whole|;
    forall i | 0 <= i < |whole|
      ensures joined[i] == whole[i]
    {
    }
  }

  // ---------------------------------------------------------------------------------------
  // GetWalletTokens

  /** The handler's two optional filters, status first. */
  method SelectTokens(ts: seq<Token>, statusFilter: string, cbdcTypeFilter: string)
    returns (filtered: seq<Token>)
    ensures filtered == Selected(ts, statusFilter, cbdcTypeFilter)
  {
    filtered := ts;
    if statusFilter != "" {
      filtered := FilterTokens(filtered, HasStatus(statusFilter));
    }
    if cbdcTypeFilter != "" {
      filtered := FilterTokens(filtered, HasCBDCType(cbdcTypeFilter));
    }
  }

  /** The handler's slice bounds: `[offset, min(offset + limit, total))`, nothing past the
      end. */
  method PageOf(filtered: seq<Token>, offset: nat, limit: nat) returns (page: seq<Token>)
    ensures page == Paginate(filtered, offset, limit)
  {
    var total := |filtered|;
    var start := offset;
    var end := offset + limit;
    if start >= total {
      page := [];
    } else {
      if end > total {
        end := total;
      }
      page := filtered[start..end];
    }
  }

  datatype ListingResponse =
    | Failed(status: int, error: string)
    | Listing(walletId: Uuid, tokens: seq<Token>, total: int, limit: int, offset: int,
              count: int)

  /** `GetWalletTokens`: `walletId` is `None` when the path id does not parse; `owned` is the
      answer of the owner lookup; the query numbers are `None` when they do not parse. */
  method GetWalletTokens(walletId: Option<Uuid>, owned: Result<seq<Token>>,
                         statusFilter: string, cbdcTypeFilter: string,
                         limitParam: Option<int>, offsetParam: Option<int>)
    returns (resp: ListingResponse)
    ensures walletId.None? ==> resp == Failed(BadRequest, "Invalid wallet ID format")
    ensures walletId.Some? && owned.Err? ==>
              resp == Failed(500, "Failed to retrieve wallet tokens")
    ensures walletId.Some? && owned.Ok? ==>
              var selected := Selected(owned.value, statusFilter, cbdcTypeFilter);
              resp.Listing? && resp.walletId == walletId.value &&
              resp.limit == ClampLimit(limitParam) && resp.offset == ClampOffset(offsetParam) &&
              resp.total == |selected| &&
              resp.tokens == Paginate(selected, resp.offset, resp.limit) &&
              resp.count == |resp.tokens| <= resp.limit
  {
    if walletId.None? {
      return Failed(BadRequest, "Invalid wallet ID format");
    }
    var limit := ClampLimit(limitParam);
    var offset := ClampOffset(offsetParam);
    if owned.Err? {
      return Failed(500, "Failed to retrieve wallet tokens");
    }
    var filtered := SelectTokens(owned.value, statusFilter, cbdcTypeFilter);
    var page := PageOf(filtered, offset, limit);
    var total := |filtered|;
    resp := Listing(walletId.value, page, total, limit, offset, |page|);
  }

  // ---------------------------------------------------------------------------------------
  // TransferToken and GetTokensByCBDCType

  /** The status of a failed transfer: not found 404, frozen 409, any other error 400. */
  function TransferErrorStatus(fault: Fault): (status: int)
    ensures status == NotFound <==> fault.code == ErrTokenNotFound
    ensures status == Conflict <==> fault.code == ErrTokenFrozen
    ensures status == BadRequest <==> fault.code != ErrTokenNotFound && fault.code != ErrTokenFrozen
  {
    if fault.code == ErrTokenNotFound then NotFound
    else if fault.code == ErrTokenFrozen then Conflict
    else BadRequest
  }

  /** Through the service's checks: a missing token is answered 404, a token whose status is
      not transferable 409, and an incomplete request or a transfer to the current owner
      400. */
  lemma TransferAnswers(rules: TokenRules, ledger: map<Uuid, Token>, req: TransferRequest)
    ensures var f := TransferFault(rules, ledger, req);
            f.Some? ==>
              (TransferErrorStatus(f.value) == NotFound <==>
                 ValidateTransferRequest(req).None? && req.tokenId !in ledger) &&
              (TransferErrorStatus(f.value) == Conflict <==>
                 ValidateTransferRequest(req).None? && req.tokenId in ledger &&
                 !rules.isTransferable(ledger[req.tokenId].status))
  {
  }

  datatype TypeListingResponse =
    | InvalidType(status: int, error: string, validTypes: seq<string>)
    | TypeListing(cbdcType: string, tokens: seq<Token>, count: int)

  /** `GetTokensByCBDCType`: any type but the three CBDCs is a bad request; a valid one is
      answered with the (placeholder) empty list. */
  function GetTokensByCBDCType(cbdcType: string): (r: TypeListingResponse)
    ensures r.InvalidType? <==> cbdcType !in CBDCTypes
    ensures r.InvalidType? ==> r.status == BadRequest && forall t :: t in r.validTypes <==> t in CBDCTypes
    ensures r.TypeListing? ==> r.cbdcType == cbdcType && r.tokens == [] && r.count == 0
  {
    if cbdcType !in CBDCTypes then
      InvalidType(BadRequest, "Invalid CBDC type", [CBDCTypeUSD, CBDCTypeEUR, CBDCTypeGBP])
    else TypeListing(cbdcType, [], 0)
  }
}
