/** The token-management service: request and state validators with their exact error
    codes, and the lifecycle operations (issue, transfer, destroy, freeze, unfreeze, bulk
    status change, ownership check) over an in-memory ledger. Each operation runs in one
    database transaction, so it either applies all its changes or none. */
module TokenService {
  import opened Common
  import opened Errors

  // ---------------------------------------------------------------------------------------
  // Token vocabulary

  datatype TokenStatus = Active | Frozen | Disputed | Invalid

  function StatusValue(s: TokenStatus): string {
    match s
    case Active => "active"
    case Frozen => "frozen"
    case Disputed => "disputed"
    case Invalid => "invalid"
  }

  const AllStatuses: seq<TokenStatus> := [Active, Frozen, Disputed, Invalid]

  /** The status a request names; `None` for any string outside the four valid ones. */
  function ParseStatus(v: string): Option<TokenStatus> {
    FindByValue(AllStatuses, StatusValue, v)
  }

  lemma StatusRoundTrip(s: TokenStatus)
    ensures ParseStatus(StatusValue(s)) == Some(s)
  {
    assert s in AllStatuses;
  }

  lemma ParseStatusAcceptsExactly(v: string)
    ensures ParseStatus(v).Some? <==> v in {"active", "frozen", "disputed", "invalid"}
    ensures ParseStatus(v).Some? ==> StatusValue(ParseStatus(v).value) == v
  {
    if v in {"active", "frozen", "disputed", "invalid"} {
      var s :| s in AllStatuses && StatusValue(s) == v;
      StatusRoundTrip(s);
    }
  }

  const CBDCTypeUSD := "USD-CBDC"
  const CBDCTypeEUR := "EUR-CBDC"
  const CBDCTypeGBP := "GBP-CBDC"
  const CBDCTypes: set<string> := {CBDCTypeUSD, CBDCTypeEUR, CBDCTypeGBP}

  /** The token model's `IsFrozen`, `IsInvalid` and `IsTransferable`, which classify a status
      and are not part of this model. */
  datatype TokenRules = TokenRules(
    isFrozen: TokenStatus -> bool,
    isInvalid: TokenStatus -> bool,
    isTransferable: TokenStatus -> bool)

  datatype Token = Token(
    tokenId: Uuid,
    cbdcType: string,
    denomination: real,
    currentOwner: Uuid,
    status: TokenStatus,
    issuer: string,
    series: string,
    issuedAt: int,
    transactionHistory: seq<Uuid>)

  function TokenError(code: string, message: string): Fault {
    Fault(TokenManagementServiceName, code, message)
  }

  function InvalidState(message: string): Option<Fault> {
    Some(TokenError(ErrInvalidTokenState, message))
  }

  const MaxBatch := 1000

  // ---------------------------------------------------------------------------------------
  // Request validation

  datatype IssueRequest = IssueRequest(
    cbdcType: string,
    denomination: real,
    owner: Uuid,
    issuer: string,
    series: string,
    quantity: int)

  /** `validateIssueRequest`: the first failing check, always an invalid-token-state error. */
  function ValidateIssueRequest(req: IssueRequest): (r: Option<Fault>)
    ensures r.None? <==> req.cbdcType in CBDCTypes && req.denomination >= 0.01 &&
                         req.owner != NilUuid && req.issuer != "" && req.series != "" &&
                         1 <= req.quantity <= MaxBatch
    ensures r.Some? ==> r.value.code == ErrInvalidTokenState &&
                        r.value.service == TokenManagementServiceName
    ensures req.cbdcType == "" ==> r == InvalidState("CBDC type is required")
    ensures req.cbdcType in CBDCTypes && req.denomination <= 0.0 ==>
              r == InvalidState("denomination must be greater than 0")
    ensures req.cbdcType in CBDCTypes && 0.0 < req.denomination < 0.01 ==>
              r == InvalidState("denomination must be at least 0.01")
  {
    if req.cbdcType == "" then InvalidState("CBDC type is required")
    else if req.cbdcType !in CBDCTypes then InvalidState("invalid CBDC type: " + req.cbdcType)
    else if req.denomination <= 0.0 then InvalidState("denomination must be greater than 0")
    else if req.denomination < 0.01 then InvalidState("denomination must be at least 0.01")
    else if req.owner == NilUuid then InvalidState("owner is required")
    else if req.issuer == "" then InvalidState("issuer is required")
    else if req.series == "" then InvalidState("series is required")
    else if req.quantity <= 0 || req.quantity > MaxBatch then
      InvalidState("quantity must be between 1 and 1000")
    else None
  }

  datatype TransferRequest = TransferRequest(tokenId: Uuid, newOwner: Uuid, transactionId: Uuid)

  /** `validateTransferRequest`: all three identifiers must be set. */
  function ValidateTransferRequest(req: TransferRequest): (r: Option<Fault>)
    ensures r.None? <==> req.tokenId != NilUuid && req.newOwner != NilUuid &&
                         req.transactionId != NilUuid
    ensures r.Some? ==> r.value.code == ErrInvalidTokenState
    ensures req.tokenId == NilUuid ==> r == InvalidState("token ID is required")
  {
    if req.tokenId == NilUuid then InvalidState("token ID is required")
    else if req.newOwner == NilUuid then InvalidState("new owner is required")
    else if req.transactionId == NilUuid then InvalidState("transaction ID is required")
    else None
  }

  // ---------------------------------------------------------------------------------------
  // State guards

  /** `validateOwnershipTransfer`: transferability is checked first (a frozen-token error),
      then that the owner actually changes (an invalid-state error). */
  function ValidateOwnershipTransfer(rules: TokenRules, token: Token, newOwner: Uuid)
    : (r: Option<Fault>)
    ensures !rules.isTransferable(token.status) ==> r.Some? && r.value.code == ErrTokenFrozen
    ensures rules.isTransferable(token.status) && token.currentOwner == newOwner ==>
              r == InvalidState("new owner must be different from current owner")
    ensures r.None? <==> rules.isTransferable(token.status) && token.currentOwner != newOwner
  {
    if !rules.isTransferable(token.status) then
      Some(TokenError(ErrTokenFrozen,
                      "token in status " + StatusValue(token.status) + " cannot be transferred"))
    else if token.currentOwner == newOwner then
      InvalidState("new owner must be different from current owner")
    else None
  }

  /** `validateTokenDestruction`: any token but an already invalid one can be destroyed. */
  function ValidateTokenDestruction(rules: TokenRules, token: Token): (r: Option<Fault>)
    ensures r.None? <==> !rules.isInvalid(token.status)
    ensures r.Some? ==> r == InvalidState("token is already invalid")
  {
    if rules.isInvalid(token.status) then InvalidState("token is already invalid") else None
  }

  /** `validateTokenFreeze`: a token can be frozen unless it is frozen already or invalid,
      and "already frozen" is reported first. */
  function ValidateTokenFreeze(rules: TokenRules, token: Token): (r: Option<Fault>)
    ensures r.None? <==> !rules.isFrozen(token.status) && !rules.isInvalid(token.status)
    ensures rules.isFrozen(token.status) ==> r == InvalidState("token is already frozen")
    ensures !rules.isFrozen(token.status) && rules.isInvalid(token.status) ==>
              r == InvalidState("cannot freeze invalid token")
  {
    if rules.isFrozen(token.status) then InvalidState("token is already frozen")
    else if rules.isInvalid(token.status) then InvalidState("cannot freeze invalid token")
    else None
  }

  /** `validateTokenUnfreeze`: only a frozen token can be unfrozen. */
  function ValidateTokenUnfreeze(rules: TokenRules, token: Token): (r: Option<Fault>)
    ensures r.None? <==> rules.isFrozen(token.status)
    ensures r.Some? ==> r == InvalidState("token is not frozen")
  {
    if !rules.isFrozen(token.status) then InvalidState("token is not frozen") else None
  }

  /** Freezing and unfreezing never both pass for the same token, and a token that passes
      the freeze guard also passes the destruction guard. */
  lemma FreezeGuardsExclusive(rules: TokenRules, token: Token)
    ensures !(ValidateTokenFreeze(rules, token).None? && ValidateTokenUnfreeze(rules, token).None?)
    ensures ValidateTokenFreeze(rules, token).None? ==> ValidateTokenDestruction(rules, token).None?
  {
  }

  // ---------------------------------------------------------------------------------------
  // Bulk status requests

  datatype BulkStatusRequest = BulkStatusRequest(tokenIds: seq<Uuid>, newStatus: string,
                                                 reason: string)

  /** The first nil or repeated identifier of `ids`, reported as the loop meets it. */
  function IdListFault(ids: seq<Uuid>): (r: Option<Fault>)
    ensures r.Some? ==> r.value.code == ErrInvalidTokenState
  {
    if ids == [] then None
    else
      var init := ids[..|ids| - 1];
      var last := ids[|ids| - 1];
      if IdListFault(init).Some? then IdListFault(init)
      else if last == NilUuid then InvalidState("token ID cannot be nil")
      else if last in init then InvalidState("duplicate token ID found")
      else None
  }

  /** Once a prefix holds a bad identifier, the whole list reports that one. */
  lemma {:induction false} IdListFaultPrefix(ids: seq<Uuid>, n: nat)
    requires n <= |ids| && IdListFault(ids[..n]).Some?
    ensures IdListFault(ids) == IdListFault(ids[..n])
    decreases |ids| - n
  {
    if n < |ids| {
      assert ids[..n + 1][..n] == ids[..n];
      IdListFaultPrefix(ids, n + 1);
    } else {
      assert ids[..n] == ids;
    }
  }

  ghost predicate Distinct(ids: seq<Uuid>) {
    forall i, j :: 0 <= i < j < |ids| ==> ids[i] != ids[j]
  }

  /** An identifier list passes exactly when it holds no nil identifier and no repeat. */
  lemma {:induction false} IdListFaultMeaning(ids: seq<Uuid>)
    ensures IdListFault(ids).None? <==> NilUuid !in ids && Distinct(ids)
  {
    if ids != [] {
      var init := ids[..|ids| - 1];
      IdListFaultMeaning(init);
      assert ids == init + [ids[|ids| - 1]];
      if IdListFault(init).None? && NilUuid !in init && Distinct(init) &&
         ids[|ids| - 1] in init {
        var k :| 0 <= k < |init| && init[k] == ids[|ids| - 1];
        assert ids[k] == ids[|ids| - 1];
      }
    }
  }

  /** `validateBulkStatusUpdateRequest`: list size, then the status, then the identifiers. */
  function BulkStatusFault(req: BulkStatusRequest): (r: Option<Fault>)
    ensures r.Some? ==> r.value.code == ErrInvalidTokenState
  {
    if |req.tokenIds| == 0 then InvalidState("token IDs list cannot be empty")
    else if |req.tokenIds| > MaxBatch then
      InvalidState("cannot update more than 1000 tokens at once")
    else if ParseStatus(req.newStatus).None? then
      InvalidState("invalid token status: " + req.newStatus)
    else IdListFault(req.tokenIds)
  }

  /** A bulk request is accepted exactly when it names 1 to 1000 distinct, non-nil tokens and
      one of the four statuses. */
  lemma BulkStatusFaultMeaning(req: BulkStatusRequest)
    ensures BulkStatusFault(req).None? <==>
              1 <= |req.tokenIds| <= MaxBatch && ParseStatus(req.newStatus).Some? &&
              NilUuid !in req.tokenIds && Distinct(req.tokenIds)
  {
    IdListFaultMeaning(req.tokenIds);
  }

  /** The identifier checks of `validateBulkStatusUpdateRequest`, with its `seen` set. */
  method ValidateTokenIds(ids: seq<Uuid>) returns (r: Option<Fault>)
    ensures r == IdListFault(ids)
  {
    var seen: set<Uuid> := {};
    var i := 0;
    while i < |ids|
      invariant 0 <= i <= |ids|
      invariant IdListFault(ids[..i]).None?
      invariant seen == set k | 0 <= k < i :: ids[k]
    {
      assert ids[..i + 1][..i] == ids[..i];
      assert ids[..i] == ids[..i + 1][..i];
      assert ids[i] in ids[..i] <==> ids[i] in seen by {
        if ids[i] in ids[..i] {
          var k :| 0 <= k < i && ids[..i][k] == ids[i];
          assert ids[k] == ids[i];
        }
        if ids[i] in seen {
          var k :| 0 <= k < i && ids[k] == ids[i];
          assert ids[..i][k] == ids[i];
        }
      }
      if ids[i] == NilUuid {
        assert IdListFault(ids[..i + 1]) == InvalidState("token ID cannot be nil");
        IdListFaultPrefix(ids, i + 1);
        return InvalidState("token ID cannot be nil");
      }
      if ids[i] in seen {
        assert IdListFault(ids[..i + 1]) == InvalidState("duplicate token ID found");
        IdListFaultPrefix(ids, i + 1);
        return InvalidState("duplicate token ID found");
      }
      seen := seen + {ids[i]};
      i := i + 1;
    }
    assert ids[..i] == ids;
    r := None;
  }

  method ValidateBulkStatusUpdateRequest(req: BulkStatusRequest) returns (r: Option<Fault>)
    ensures r == BulkStatusFault(req)
  {
    if |req.tokenIds| == 0 {
      return InvalidState("token IDs list cannot be empty");
    }
    if |req.tokenIds| > MaxBatch {
      return InvalidState("cannot update more than 1000 tokens at once");
    }
    if ParseStatus(req.newStatus).None? {
      return InvalidState("invalid token status: " + req.newStatus);
    }
    r := ValidateTokenIds(req.tokenIds);
  }

  // ---------------------------------------------------------------------------------------
  // Responses

  datatype IssueResponse = IssueResponse(tokens: seq<Token>, count: int, issuedAt: int)

  datatype TransferResponse = TransferResponse(token: Token, previousOwner: Uuid,
                                               transferredAt: int)

  /** The answer to a freeze or an unfreeze: the updated token, when and why. */
  datatype StatusChangeResponse = StatusChangeResponse(token: Token, changedAt: int,
                                                       reason: string)

  datatype BulkStatusResponse = BulkStatusResponse(updatedCount: int, newStatus: string,
                                                   updatedAt: int, reason: string)

  /** `models.NewToken`: an active token of the request's kind with an empty history. */
  function NewToken(req: IssueRequest, id: Uuid, now: int): Token {
    Token(id, req.cbdcType, req.denomination, req.owner, Active, req.issuer, req.series, now, [])
  }

  /** `TransferOwnership`: the new owner holds the token, and the transfer is on its record. */
  function Transferred(token: Token, newOwner: Uuid, transactionId: Uuid): (t: Token)
    ensures t.currentOwner == newOwner && transactionId in t.transactionHistory
    ensures t.tokenId == token.tokenId && t.status == token.status
  {
    token.(currentOwner := newOwner,
           transactionHistory := token.transactionHistory + [transactionId])
  }

  /** Identifiers a generator can hand out: distinct, non-nil and not yet in the ledger. */
  ghost predicate FreshIds(ids: seq<Uuid>, ledger: map<Uuid, Token>) {
    Distinct(ids) && forall i :: 0 <= i < |ids| ==> ids[i] != NilUuid && ids[i] !in ledger
  }

  /** The outcome of `TransferToken` before anything is written: the first failing check. */
  function TransferFault(rules: TokenRules, ledger: map<Uuid, Token>, req: TransferRequest)
    : Option<Fault>
  {
    if ValidateTransferRequest(req).Some? then ValidateTransferRequest(req)
    else if req.tokenId !in ledger then Some(TokenError(ErrTokenNotFound, "token not found"))
    else ValidateOwnershipTransfer(rules, ledger[req.tokenId], req.newOwner)
  }

  /** A transfer of a stored token by a complete request fails with a frozen-token error
      exactly when the token's status is not transferable, and otherwise only for a transfer
      to its own owner. */
  lemma TransferFaultMeaning(rules: TokenRules, ledger: map<Uuid, Token>, req: TransferRequest)
    requires ValidateTransferRequest(req).None? && req.tokenId in ledger
    ensures var f := TransferFault(rules, ledger, req);
            (f.Some? && f.value.code == ErrTokenFrozen <==>
               !rules.isTransferable(ledger[req.tokenId].status)) &&
            (f.None? <==> rules.isTransferable(ledger[req.tokenId].status) &&
                          ledger[req.tokenId].currentOwner != req.newOwner)
  {
  }

  /** The outcome of `DestroyToken`, `FreezeToken` or `UnfreezeToken` before anything is
      written: a nil id, a missing token, then the operation's own state guard. */
  function SingleTokenFault(ledger: map<Uuid, Token>, id: Uuid, guard: Token -> Option<Fault>)
    : (r: Option<Fault>)
    ensures id == NilUuid ==> r == InvalidState("token ID cannot be nil")
    ensures id != NilUuid && id !in ledger ==> r.Some? && r.value.code == ErrTokenNotFound
    ensures id != NilUuid && id in ledger ==> r == guard(ledger[id])
  {
    if id == NilUuid then InvalidState("token ID cannot be nil")
    else if id !in ledger then Some(TokenError(ErrTokenNotFound, "token not found"))
    else guard(ledger[id])
  }

  // ---------------------------------------------------------------------------------------
  // The service over its ledger

  /** What a failing store makes each status change report. */
  const DestroyFailedMessage := "failed to destroy token"
  const FreezeFailedMessage := "failed to freeze token"
  const UnfreezeFailedMessage := "failed to unfreeze token"

  /** `TokenService` with its repository as a map from token id to token. */
  class TokenLedger {
    var tokens: map<Uuid, Token>

    ghost predicate Valid()
      reads this
    {
      forall id :: id in tokens ==> id != NilUuid && tokens[id].tokenId == id
    }

    constructor()
      ensures tokens == map[] && Valid()
    {
      tokens := map[];
    }

    /** `GetToken`: a nil id is refused, a missing token is not found. */
    function GetToken(id: Uuid): (r: Result<Token>)
      reads this
      ensures r.Ok? <==> id != NilUuid && id in tokens
      ensures r.Ok? ==> r.value == tokens[id]
      ensures id == NilUuid ==> r.Err? && r.fault.code == ErrInvalidTokenState
      ensures id != NilUuid && id !in tokens ==> r.Err? && r.fault.code == ErrTokenNotFound
    {
      if id == NilUuid then Err(TokenError(ErrInvalidTokenState, "token ID cannot be nil"))
      else if id !in tokens then Err(TokenError(ErrTokenNotFound, "token not found"))
      else Ok(tokens[id])
    }

    /** `VerifyOwnership`: whether `owner` holds the token; the lookup error otherwise. */
    function VerifyOwnership(id: Uuid, owner: Uuid): (r: Result<bool>)
      reads this
      ensures r.Err? <==> GetToken(id).Err?
      ensures r.Err? ==> r.fault == GetToken(id).fault
      ensures r.Ok? ==> (r.value <==> tokens[id].currentOwner == owner)
    {
      match GetToken(id)
      case Err(f) => Err(f)
      case Ok(token) => Ok(token.currentOwner == owner)
    }

    /** `IssueTokens`: validates first; then creates `quantity` active tokens with the
        generator's identifiers in one transaction, or none when the store fails. */
    method IssueTokens(req: IssueRequest, ids: seq<Uuid>, now: int, storeFails: bool)
      returns (r: Result<IssueResponse>)
      requires Valid()
      requires |ids| == MaxBatch && FreshIds(ids, tokens)
      modifies this`tokens
      ensures Valid()
      ensures ValidateIssueRequest(req).Some? ==>
                r == Err(ValidateIssueRequest(req).value) && tokens == old(tokens)
      ensures ValidateIssueRequest(req).None? && storeFails ==>
                r.Err? && r.fault.code == ErrTransactionFailed && tokens == old(tokens)
      ensures ValidateIssueRequest(req).None? && !storeFails ==>
                r.Ok? && r.value.count == |r.value.tokens| == req.quantity &&
                r.value.issuedAt == now &&
                (forall i :: 0 <= i < req.quantity ==>
                   r.value.tokens[i] == NewToken(req, ids[i], now) &&
                   ids[i] in tokens && tokens[ids[i]] == r.value.tokens[i]) &&
                tokens.Keys == old(tokens).Keys + set i | 0 <= i < req.quantity :: ids[i]
      ensures forall id :: id in old(tokens) ==> id in tokens && tokens[id] == old(tokens)[id]
    {
      var fault := ValidateIssueRequest(req);
      if fault.Some? {
        return Err(fault.value);
      }
      if storeFails {
        return Err(TokenError(ErrTransactionFailed, "failed to issue tokens"));
      }
      var issued: seq<Token> := [];
      var i := 0;
      while i < req.quantity
        invariant 0 <= i <= req.quantity
        invariant |issued| == i
        invariant forall k :: 0 <= k < i ==>
                    issued[k] == NewToken(req, ids[k], now) && ids[k] in tokens &&
                    tokens[ids[k]] == issued[k]
        invariant tokens.Keys == old(tokens).Keys + set k | 0 <= k < i :: ids[k]
        invariant forall id :: id in old(tokens) ==> id in tokens && tokens[id] == old(tokens)[id]
        invariant Valid()
      {
        var token := NewToken(req, ids[i], now);
        tokens := tokens[ids[i] := token];
        issued := issued + [token];
        i := i + 1;
      }
      r := Ok(IssueResponse(issued, |issued|, now));
    }

    /** `TransferToken`: hands the token to the new owner and records the transaction. */
    method TransferToken(rules: TokenRules, req: TransferRequest, now: int, storeFails: bool)
      returns (r: Result<TransferResponse>)
      requires Valid()
      modifies this`tokens
      ensures Valid()
      ensures TransferFault(rules, old(tokens), req).Some? ==>
                r == Err(TransferFault(rules, old(tokens), req).value) && tokens == old(tokens)
      ensures TransferFault(rules, old(tokens), req).None? && storeFails ==>
                r.Err? && r.fault.code == ErrTokenTransferFailed && tokens == old(tokens)
      ensures TransferFault(rules, old(tokens), req).None? && !storeFails ==>
                var t := Transferred(old(tokens)[req.tokenId], req.newOwner, req.transactionId);
                r == Ok(TransferResponse(t, old(tokens)[req.tokenId].currentOwner, now)) &&
                tokens == old(tokens)[req.tokenId := t]
    {
      var fault := TransferFault(rules, tokens, req);
      if fault.Some? {
        return Err(fault.value);
      }
      if storeFails {
        return Err(TokenError(ErrTokenTransferFailed, "failed to transfer token"));
      }
      var token := tokens[req.tokenId];
      var updated := Transferred(token, req.newOwner, req.transactionId);
      tokens := tokens[req.tokenId := updated];
      r := Ok(TransferResponse(updated, token.currentOwner, now));
    }

    /** The common shape of destroy, freeze and unfreeze: the guard, then the new status. A
        failing store is reported under the operation's own text. */
    method ChangeStatus(id: Uuid, guard: Token -> Option<Fault>, status: TokenStatus,
                        failureText: string, storeFails: bool)
      returns (r: Result<Token>)
      requires Valid()
      modifies this`tokens
      ensures Valid()
      ensures SingleTokenFault(old(tokens), id, guard).Some? ==>
                r == Err(SingleTokenFault(old(tokens), id, guard).value) && tokens == old(tokens)
      ensures SingleTokenFault(old(tokens), id, guard).None? && storeFails ==>
                r == Err(TokenError(ErrTransactionFailed, failureText)) && tokens == old(tokens)
      ensures SingleTokenFault(old(tokens), id, guard).None? && !storeFails ==>
                r == Ok(old(tokens)[id].(status := status)) &&
                tokens == old(tokens)[id := r.value]
    {
      var fault := SingleTokenFault(tokens, id, guard);
      if fault.Some? {
        return Err(fault.value);
      }
      if storeFails {
        return Err(TokenError(ErrTransactionFailed, failureText));
      }
      var updated := tokens[id].(status := status);
      tokens := tokens[id := updated];
      r := Ok(updated);
    }

    /** `DestroyToken`: an irreversible move to the invalid status. */
    method DestroyToken(rules: TokenRules, id: Uuid, storeFails: bool)
      returns (r: Option<Fault>)
      requires Valid()
      modifies this`tokens
      ensures Valid()
      ensures var guard := (t: Token) => ValidateTokenDestruction(rules, t);
              var fault := SingleTokenFault(old(tokens), id, guard);
              (fault.Some? ==> r == fault && tokens == old(tokens)) &&
              (fault.None? && storeFails ==>
                 r == Some(TokenError(ErrTransactionFailed, DestroyFailedMessage)) &&
                 tokens == old(tokens)) &&
              (fault.None? && !storeFails ==>
                 r.None? && tokens == old(tokens)[id := old(tokens)[id].(status := Invalid)])
    {
      var outcome := ChangeStatus(id, (t: Token) => ValidateTokenDestruction(rules, t), Invalid,
                                  DestroyFailedMessage, storeFails);
      r := if outcome.Err? then Some(outcome.fault) else None;
    }

    /** `FreezeToken`: an active (not frozen, not invalid) token becomes frozen. */
    method FreezeToken(rules: TokenRules, id: Uuid, reason: string, now: int, storeFails: bool)
      returns (r: Result<StatusChangeResponse>)
      requires Valid()
      modifies this`tokens
      ensures Valid()
      ensures var guard := (t: Token) => ValidateTokenFreeze(rules, t);
              var fault := SingleTokenFault(old(tokens), id, guard);
              (fault.Some? ==> r == Err(fault.value) && tokens == old(tokens)) &&
              (fault.None? && storeFails ==>
                 r == Err(TokenError(ErrTransactionFailed, FreezeFailedMessage)) &&
                 tokens == old(tokens)) &&
              (fault.None? && !storeFails ==>
                 r.Ok? && r.value.token == old(tokens)[id].(status := Frozen) &&
                 r.value.changedAt == now && r.value.reason == reason &&
                 tokens == old(tokens)[id := r.value.token])
    {
      var outcome := ChangeStatus(id, (t: Token) => ValidateTokenFreeze(rules, t), Frozen,
                                  FreezeFailedMessage, storeFails);
      r := if outcome.Err? then Err(outcome.fault)
           else Ok(StatusChangeResponse(outcome.value, now, reason));
    }

    /** `UnfreezeToken`: a frozen token becomes active again. */
    method UnfreezeToken(rules: TokenRules, id: Uuid, reason: string, now: int,
                         storeFails: bool)
      returns (r: Result<StatusChangeResponse>)
      requires Valid()
      modifies this`tokens
      ensures Valid()
      ensures var guard := (t: Token) => ValidateTokenUnfreeze(rules, t);
              var fault := SingleTokenFault(old(tokens), id, guard);
              (fault.Some? ==> r == Err(fault.value) && tokens == old(tokens)) &&
              (fault.None? && storeFails ==>
                 r == Err(TokenError(ErrTransactionFailed, UnfreezeFailedMessage)) &&
                 tokens == old(tokens)) &&
              (fault.None? && !storeFails ==>
                 r.Ok? && r.value.token == old(tokens)[id].(status := Active) &&
                 r.value.changedAt == now && r.value.reason == reason &&
                 tokens == old(tokens)[id := r.value.token])
    {
      var outcome := ChangeStatus(id, (t: Token) => ValidateTokenUnfreeze(rules, t), Active,
                                  UnfreezeFailedMessage, storeFails);
      r := if outcome.Err? then Err(outcome.fault)
           else Ok(StatusChangeResponse(outcome.value, now, reason));
    }

    /** `BulkUpdateTokenStatus`: after validation every listed token that exists takes the
        new status; listed identifiers with no token are skipped, yet the reported count is
        the length of the list. */
    method BulkUpdateTokenStatus(req: BulkStatusRequest, now: int, storeFails: bool)
      returns (r: Result<BulkStatusResponse>)
      requires Valid()
      modifies this`tokens
      ensures Valid()
      ensures BulkStatusFault(req).Some? ==>
                r == Err(BulkStatusFault(req).value) && tokens == old(tokens)
      ensures BulkStatusFault(req).None? && storeFails ==>
                r.Err? && r.fault.code == ErrTransactionFailed && tokens == old(tokens)
      ensures BulkStatusFault(req).None? && !storeFails ==>
                r == Ok(BulkStatusResponse(|req.tokenIds|, req.newStatus, now, req.reason)) &&
                tokens.Keys == old(tokens).Keys &&
                forall id :: id in tokens ==>
                  tokens[id] == if id in req.tokenIds
                                then old(tokens)[id].(status := ParseStatus(req.newStatus).value)
                                else old(tokens)[id]
    {
      var fault := ValidateBulkStatusUpdateRequest(req);
      if fault.Some? {
        return Err(fault.value);
      }
      if storeFails {
        return Err(TokenError(ErrTransactionFailed, "failed to bulk update token status"));
      }
      var status := ParseStatus(req.newStatus).value;
      tokens := map id | id in tokens :: if id in req.tokenIds then tokens[id].(status := status)
                                         else tokens[id];
      r := Ok(BulkStatusResponse(|req.tokenIds|, req.newStatus, now, req.reason));
    }

    /** `BulkFreezeTokens`: checks the list size itself, then a bulk change to frozen. */
    method BulkFreezeTokens(ids: seq<Uuid>, reason: string, now: int, storeFails: bool)
      returns (r: Result<BulkStatusResponse>)
      requires Valid()
      modifies this`tokens
      ensures Valid()
      ensures |ids| == 0 ==> r == Err(TokenError(ErrInvalidTokenState,
                                                 "token IDs list cannot be empty"))
      ensures |ids| > MaxBatch ==>
                r == Err(TokenError(ErrInvalidTokenState,
                                    "cannot freeze more than 1000 tokens at once"))
      ensures r.Err? ==> tokens == old(tokens)
      ensures r.Ok? <==> 1 <= |ids| <= MaxBatch && NilUuid !in ids && Distinct(ids) && !storeFails
      ensures r.Ok? ==> r.value.updatedCount == |ids| && r.value.newStatus == "frozen" &&
                        tokens.Keys == old(tokens).Keys &&
                        (forall id :: id in ids && id in old(tokens) ==>
                           tokens[id] == old(tokens)[id].(status := Frozen)) &&
                        forall id :: id in old(tokens) && id !in ids ==>
                          tokens[id] == old(tokens)[id]
    {
      if |ids| == 0 {
        return Err(TokenError(ErrInvalidTokenState, "token IDs list cannot be empty"));
      }
      if |ids| > MaxBatch {
        return Err(TokenError(ErrInvalidTokenState,
                              "cannot freeze more than 1000 tokens at once"));
      }
      var req := BulkStatusRequest(ids, StatusValue(Frozen), reason);
      StatusRoundTrip(Frozen);
      BulkStatusFaultMeaning(req);
      r := BulkUpdateTokenStatus(req, now, storeFails);
    }

    /** `BulkUnfreezeTokens`: checks the list size itself, then a bulk change to active. */
    method BulkUnfreezeTokens(ids: seq<Uuid>, reason: string, now: int, storeFails: bool)
      returns (r: Result<BulkStatusResponse>)
      requires Valid()
      modifies this`tokens
      ensures Valid()
      ensures |ids| == 0 ==> r == Err(TokenError(ErrInvalidTokenState,
                                                 "token IDs list cannot be empty"))
      ensures |ids| > MaxBatch ==>
                r == Err(TokenError(ErrInvalidTokenState,
                                    "cannot unfreeze more than 1000 tokens at once"))
      ensures r.Err? ==> tokens == old(tokens)
      ensures r.Ok? <==> 1 <= |ids| <= MaxBatch && NilUuid !in ids && Distinct(ids) && !storeFails
      ensures r.Ok? ==> r.value.updatedCount == |ids| && r.value.newStatus == "active" &&
                        tokens.Keys == old(tokens).Keys &&
                        (forall id :: id in ids && id in old(tokens) ==>
                           tokens[id] == old(tokens)[id].(status := Active)) &&
                        forall id :: id in old(tokens) && id !in ids ==>
                          tokens[id] == old(tokens)[id]
    {
      if |ids| == 0 {
        return Err(TokenError(ErrInvalidTokenState, "token IDs list cannot be empty"));
      }
      if |ids| > MaxBatch {
        return Err(TokenError(ErrInvalidTokenState,
                              "cannot unfreeze more than 1000 tokens at once"));
      }
      var req := BulkStatusRequest(ids, StatusValue(Active), reason);
      StatusRoundTrip(Active);
      BulkStatusFaultMeaning(req);
      r := BulkUpdateTokenStatus(req, now, storeFails);
    }
  }
}
