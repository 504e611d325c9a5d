/**
 * The one-time login token lifecycle: issuing a PENDING audit record that
 * keeps only the token's hash, validating a presented token against the
 * PENDING records (expiring it when late), and moving a validated record to
 * SUCCESS or FAILED.
 *
 * Each operation is a method of `TokenService` that changes the audit table
 * in place, and is proved equal to a function of the old table (Issue,
 * Validate, MarkUsed, MarkFailed); the lifecycle lemmas are about those.
 */
module TokenLifecycle {
  import opened Wrappers
  import opened AuditLogModel
  import opened Platform
  import Config

  /** Bytes of randomness per token; its hex form has twice as many characters. */
  const TOKEN_LENGTH: nat := 32

  const MSG_CUSTOMER_MISSING: string := "Customer does not exist."
  const MSG_ADMIN_MISSING: string := "Unable to identify admin user."
  const MSG_GENERATION_FAILED: string := "Failed to generate login token."

  type Byte = b: int | 0 <= b < 256

  /** What `random_bytes(TOKEN_LENGTH)` returns. */
  type RandomBlock = s: seq<Byte> | |s| == TOKEN_LENGTH witness seq(TOKEN_LENGTH, _ => 0)

  // ---- the token's text form ------------------------------------------------

  predicate IsHexDigit(c: char) { '0' <= c <= '9' || 'a' <= c <= 'f' }

  predicate IsHex(s: string) { forall i :: 0 <= i < |s| ==> IsHexDigit(s[i]) }

  function HexDigit(d: nat): (c: char)
    requires d < 16
    ensures IsHexDigit(c)
  {
    if d < 10 then ('0' as int + d) as char else ('a' as int + d - 10) as char
  }

  function HexValue(c: char): (d: nat)
    requires IsHexDigit(c)
    ensures d < 16
  {
    if c <= '9' then c as int - '0' as int else c as int - 'a' as int + 10
  }

  /** `bin2hex`: two lower-case hex digits per byte, high half first. */
  function BinToHex(bytes: seq<Byte>): (hex: string)
    ensures |hex| == 2 * |bytes| && IsHex(hex)
  {
    if bytes == [] then []
    else [HexDigit(bytes[0] / 16), HexDigit(bytes[0] % 16)] + BinToHex(bytes[1..])
  }

  /** `hex2bin`, the inverse of BinToHex. */
  function HexToBin(hex: string): seq<Byte>
    requires |hex| % 2 == 0 && IsHex(hex)
  {
    if hex == [] then [] else [HexValue(hex[0]) * 16 + HexValue(hex[1])] + HexToBin(hex[2..])
  }

  /** The hex form loses nothing: distinct random blocks give distinct tokens. */
  lemma {:induction false} HexRoundTrip(bytes: seq<Byte>)
    ensures HexToBin(BinToHex(bytes)) == bytes
  {
    if bytes != [] {
      var hex := BinToHex(bytes);
      assert hex[2..] == BinToHex(bytes[1..]);
      HexRoundTrip(bytes[1..]);
      assert [bytes[0]] + bytes[1..] == bytes;
    }
  }

  // ---- the audit table ------------------------------------------------------

  /** The audit-log table: rows by entity id, and the next auto-increment id. */
  datatype Table = Table(rows: map<nat, LogData>, nextId: nat) {
    /**
     * Ids start at 1, stay below the counter, each row carries its own id,
     * and a PENDING row carries its expiry time.
     */
    predicate Valid() {
      nextId >= 1 && forall id :: id in rows ==> 1 <= id < nextId && rows[id].entityId == Some(id) && ExpiryIfPending(rows[id])
    }
  }

  /** A PENDING record carries its expiry time. */
  predicate ExpiryIfPending(d: LogData) {
    d.status == Some(STATUS_PENDING) ==> d.expiresAt.Some?
  }

  /**
   * The resource model's `save` of a model's data: without an id the data is
   * inserted under the next id, which the model then carries; with an id it
   * overwrites that row, and an id with no row is left alone.
   */
  function Persist(t: Table, d: LogData): (r: (Table, LogData))
    requires t.Valid()
    ensures ExpiryIfPending(d) ==> r.0.Valid()
    ensures r.1 == d.(entityId := r.1.entityId)
    ensures d.entityId.None? ==>
              && t.nextId !in t.rows
              && r.1.entityId == Some(t.nextId)
              && r.0.rows == t.rows[t.nextId := r.1]
    ensures d.entityId.Some? ==>
              && r.1 == d
              && r.0.rows == (if d.entityId.value in t.rows then t.rows[d.entityId.value := d] else t.rows)
  {
    match d.entityId
    case None =>
      var saved := d.(entityId := Some(t.nextId));
      (Table(t.rows[t.nextId := saved], t.nextId + 1), d.(entityId := Some(t.nextId)))
    case Some(id) =>
      (if id in t.rows then Table(t.rows[id := d], t.nextId) else t, d)
  }

  predicate PendingWith(d: LogData, tokenHash: string) {
    d.tokenHash == Some(tokenHash) && d.status == Some(STATUS_PENDING)
  }

  /** The lowest id in [from, bound) whose row is PENDING with the given hash. */
  function FindPending(rows: map<nat, LogData>, tokenHash: string, from: nat, bound: nat): (r: Option<nat>)
    decreases bound - from
    ensures r.Some? ==> from <= r.value < bound && r.value in rows && PendingWith(rows[r.value], tokenHash)
    ensures r.Some? ==> forall j :: from <= j < r.value && j in rows ==> !PendingWith(rows[j], tokenHash)
    ensures r.None? ==> forall j :: from <= j < bound && j in rows ==> !PendingWith(rows[j], tokenHash)
  {
    if from >= bound then None
    else if from in rows && PendingWith(rows[from], tokenHash) then Some(from)
    else FindPending(rows, tokenHash, from + 1, bound)
  }

  /**
   * The collection query of `validateToken`: rows with this token hash and
   * status PENDING, page size 1, first item, taken here in id order.
   */
  function FirstPending(t: Table, tokenHash: string): (r: Option<nat>)
    requires t.Valid()
    ensures r.Some? ==> r.value in t.rows && PendingWith(t.rows[r.value], tokenHash)
    ensures r.Some? ==> forall j :: j in t.rows && j < r.value ==> !PendingWith(t.rows[j], tokenHash)
    ensures r.None? <==> forall id :: id in t.rows ==> !PendingWith(t.rows[id], tokenHash)
  {
    FindPending(t.rows, tokenHash, 1, t.nextId)
  }

  /** `$currentTime > strtotime($expiresAt)`, with both times in seconds. */
  predicate IsExpired(now: int, expiresAt: int) {
    now > expiresAt
  }

  // ---- the lifecycle, as functions of the table -------------------------------

  /** What `generateToken` reads from its collaborators besides the clock and the random source. */
  datatype IssueContext = IssueContext(
    customers: map<int, Customer>,
    admin: Option<AdminUser>,
    remoteAddress: Option<string>,
    storeId: int)

  /** The raw token for the redemption URL and the id of its audit record. */
  datatype TokenData = TokenData(token: string, logId: nat)

  /** The data array `generateToken` fills in before saving. */
  function PendingRecord(admin: AdminUser, customerId: int, email: string, tokenHash: string,
                         remoteAddress: Option<string>, storeId: int, expiresAt: int): LogData
  {
    EMPTY.(adminId := Some(admin.id), adminUsername := Some(admin.username),
           customerId := Some(customerId), customerEmail := Some(email),
           tokenHash := Some(tokenHash), ipAddress := remoteAddress,
           status := Some(STATUS_PENDING), storeId := Some(storeId),
           expiresAt := Some(expiresAt))
  }

  /**
   * `generateToken`: the customer is checked first, then the admin; on
   * success exactly one PENDING row is added, holding the token's hash and
   * never the token; a failed save adds nothing and returns no token.
   */
  function Issue(t: Table, hash: string -> string, customerId: int, ctx: IssueContext,
                 random: RandomBlock, now: int, lifetime: int, saveOk: bool): (r: (Result<TokenData>, Table))
    requires t.Valid()
    ensures r.1.Valid()
    ensures r.0.Err? ==> r.1 == t
    ensures customerId !in ctx.customers ==> r.0 == Err(MSG_CUSTOMER_MISSING)
    ensures customerId in ctx.customers && (ctx.admin.None? || ctx.admin.value.id == 0) ==>
              r.0 == Err(MSG_ADMIN_MISSING)
    ensures customerId in ctx.customers && ctx.admin.Some? && ctx.admin.value.id != 0 && !saveOk ==>
              r.0 == Err(MSG_GENERATION_FAILED)
    ensures r.0.Ok? <==> customerId in ctx.customers && ctx.admin.Some? && ctx.admin.value.id != 0 && saveOk
    ensures r.0.Ok? ==>
              var id, token := r.0.value.logId, r.0.value.token;
              && token == BinToHex(random)
              && |token| == 2 * TOKEN_LENGTH && IsHex(token)
              && id !in t.rows && id in r.1.rows
              && r.1.rows == t.rows[id := r.1.rows[id]]
              && r.1.rows[id].entityId == Some(id)
              && r.1.rows[id].status == Some(STATUS_PENDING)
              && r.1.rows[id].tokenHash == Some(hash(token))
              && r.1.rows[id].expiresAt == Some(now + lifetime * 60)
              && r.1.rows[id].usedAt == None
              && r.1.rows[id].customerId == Some(customerId)
              && r.1.rows[id].customerEmail == Some(ctx.customers[customerId].email)
              && r.1.rows[id].adminId == Some(ctx.admin.value.id)
              && r.1.rows[id].adminUsername == Some(ctx.admin.value.username)
              && r.1.rows[id].ipAddress == ctx.remoteAddress
              && r.1.rows[id].storeId == Some(ctx.storeId)
  {
    if customerId !in ctx.customers then (Err(MSG_CUSTOMER_MISSING), t)
    else if ctx.admin.None? || ctx.admin.value.id == 0 then (Err(MSG_ADMIN_MISSING), t)
    else
      var token := BinToHex(random);
      var record := PendingRecord(ctx.admin.value, customerId, ctx.customers[customerId].email,
                                  hash(token), ctx.remoteAddress, ctx.storeId, now + lifetime * 60);
      if !saveOk then (Err(MSG_GENERATION_FAILED), t)
      else
        var saved := Persist(t, record);
        (Ok(TokenData(token, t.nextId)), saved.0)
  }

  /**
   * `validateToken`: the first PENDING row with the token's hash, returned
   * unchanged while `now <= expires_at`; once `now > expires_at` the row is
   * marked EXPIRED (if that save succeeds) and nothing is returned.
   */
  function Validate(t: Table, hash: string -> string, token: string, now: int, saveOk: bool): (r: (Option<LogData>, Table))
    requires t.Valid()
    ensures r.1.Valid()
    ensures FirstPending(t, hash(token)).None? ==> r == (None, t)
    ensures r.0.Some? ==>
              && r.1 == t
              && r.0 == Some(t.rows[FirstPending(t, hash(token)).value])
              && PendingWith(r.0.value, hash(token))
              && r.0.value.expiresAt.Some?
              && !IsExpired(now, r.0.value.expiresAt.value)
    ensures FirstPending(t, hash(token)).Some? ==>
              var id := FirstPending(t, hash(token)).value;
              && t.rows[id].expiresAt.Some?
              && (IsExpired(now, t.rows[id].expiresAt.value) ==>
                    && r.0 == None
                    && r.1 == (if saveOk then Table(t.rows[id := t.rows[id].(status := Some(STATUS_EXPIRED))], t.nextId) else t))
              && (!IsExpired(now, t.rows[id].expiresAt.value) ==> r.0 == Some(t.rows[id]))
  {
    match FirstPending(t, hash(token))
    case None => (None, t)
    case Some(id) =>
      var row := t.rows[id];
      if IsExpired(now, row.expiresAt.value) then
        (None, if saveOk then Persist(t, row.(status := Some(STATUS_EXPIRED))).0 else t)
      else (Some(row), t)
  }

  /**
   * `markTokenAsUsed`: the model becomes SUCCESS with `used_at = now`; its row
   * is overwritten when the save succeeds, and a failed save is swallowed.
   */
  function MarkUsed(t: Table, d: LogData, now: int, saveOk: bool): (r: (Table, LogData))
    requires t.Valid()
    ensures r.0.Valid()
    ensures r.1.status == Some(STATUS_SUCCESS) && r.1.usedAt == Some(now)
    ensures r.1 == d.(status := Some(STATUS_SUCCESS), usedAt := Some(now), entityId := r.1.entityId)
    ensures d.entityId.Some? ==> r.1.entityId == d.entityId
    ensures !saveOk ==> r.0 == t
    ensures saveOk && d.entityId.Some? && d.entityId.value in t.rows ==>
              r.0 == Table(t.rows[d.entityId.value := r.1], t.nextId) && r.1 == d.(status := Some(STATUS_SUCCESS), usedAt := Some(now))
  {
    var marked := d.(status := Some(STATUS_SUCCESS), usedAt := Some(now));
    if saveOk then Persist(t, marked) else (t, marked)
  }

  /**
   * `markTokenAsFailed`: the model becomes FAILED and keeps its `used_at`; its
   * row is overwritten when the save succeeds, and a failed save is swallowed.
   */
  function MarkFailed(t: Table, d: LogData, saveOk: bool): (r: (Table, LogData))
    requires t.Valid()
    ensures r.0.Valid()
    ensures r.1.status == Some(STATUS_FAILED) && r.1.usedAt == d.usedAt
    ensures r.1 == d.(status := Some(STATUS_FAILED), entityId := r.1.entityId)
    ensures d.entityId.Some? ==> r.1.entityId == d.entityId
    ensures !saveOk ==> r.0 == t
    ensures saveOk && d.entityId.Some? && d.entityId.value in t.rows ==>
              r.0 == Table(t.rows[d.entityId.value := r.1], t.nextId) && r.1 == d.(status := Some(STATUS_FAILED))
  {
    var marked := d.(status := Some(STATUS_FAILED));
    if saveOk then Persist(t, marked) else (t, marked)
  }

  // ---- lifecycle properties ----------------------------------------------------

  /** Only PENDING rows change, and only to EXPIRED; no row is added or removed. */
  predicate OnlyExpiresPending(before: Table, after: Table) {
    && before.nextId == after.nextId
    && before.rows.Keys == after.rows.Keys
    && forall id :: id in before.rows ==>
         after.rows[id] == before.rows[id]
         || (before.rows[id].status == Some(STATUS_PENDING)
             && after.rows[id] == before.rows[id].(status := Some(STATUS_EXPIRED)))
  }

  lemma ValidateOnlyExpiresPending(t: Table, hash: string -> string, token: string, now: int, saveOk: bool)
    requires t.Valid()
    ensures OnlyExpiresPending(t, Validate(t, hash, token, now, saveOk).1)
  {
  }

  /**
   * Single use: a row that has left PENDING is never returned by a later
   * validation, whatever token is presented.
   */
  lemma ResolvedRowNeverValidated(t: Table, hash: string -> string, token: string, now: int, saveOk: bool, id: nat)
    requires t.Valid() && id in t.rows && IsTerminal(t.rows[id].status)
    ensures Validate(t, hash, token, now, saveOk).0 != Some(t.rows[id])
  {
  }

  /** No row other than `id` is PENDING with this hash. */
  predicate OnlyPendingWith(t: Table, tokenHash: string, id: nat) {
    forall j :: j in t.rows && j != id ==> !PendingWith(t.rows[j], tokenHash)
  }

  /**
   * A token nobody issued (no row has its hash) is rejected and changes
   * nothing.
   */
  lemma UnknownTokenRejected(t: Table, hash: string -> string, token: string, now: int, saveOk: bool)
    requires t.Valid()
    requires forall id :: id in t.rows ==> t.rows[id].tokenHash != Some(hash(token))
    ensures Validate(t, hash, token, now, saveOk) == (None, t)
  {
  }

  /** A token's issued row, when no other PENDING row shares its hash, is what validation finds. */
  lemma IssuedRowIsFirstPending(t: Table, tokenHash: string, id: nat)
    requires t.Valid() && id in t.rows && PendingWith(t.rows[id], tokenHash)
    requires OnlyPendingWith(t, tokenHash, id)
    ensures FirstPending(t, tokenHash) == Some(id)
  {
  }

  /**
   * Issue, validate within the lifetime, mark used, validate again: the first
   * validation returns the issued record still PENDING, marking it used
   * records SUCCESS and the time, and the second validation rejects the
   * token and changes nothing. Hash uniqueness among PENDING rows is assumed
   * (no PENDING row had the new token's hash before issuance).
   */
  lemma IssueValidateUseValidate(
    t: Table, hash: string -> string, customerId: int, ctx: IssueContext, random: RandomBlock,
    issuedAt: int, lifetime: int, usedAt: int, saveOk: bool, laterAt: int)
    requires t.Valid()
    requires Issue(t, hash, customerId, ctx, random, issuedAt, lifetime, true).0.Ok?
    requires forall id :: id in t.rows ==> !PendingWith(t.rows[id], hash(BinToHex(random)))
    requires usedAt <= issuedAt + lifetime * 60
    ensures
      var (issued, t1) := Issue(t, hash, customerId, ctx, random, issuedAt, lifetime, true);
      var id, token := issued.value.logId, issued.value.token;
      var (found, t2) := Validate(t1, hash, token, usedAt, saveOk);
      && found == Some(t1.rows[id]) && t2 == t1
      && found.value.status == Some(STATUS_PENDING)
      && var t3 := MarkUsed(t2, found.value, usedAt, true).0;
      && t3.rows[id].status == Some(STATUS_SUCCESS)
      && t3.rows[id].usedAt == Some(usedAt)
      && Validate(t3, hash, token, laterAt, saveOk) == (None, t3)
  {
  }

  /**
   * Issue, then validate after the lifetime: the token is rejected and its
   * row becomes EXPIRED; validating again rejects it and changes nothing, so
   * the row expires exactly once.
   */
  lemma IssueThenExpire(
    t: Table, hash: string -> string, customerId: int, ctx: IssueContext, random: RandomBlock,
    issuedAt: int, lifetime: int, lateAt: int, laterAt: int)
    requires t.Valid()
    requires Issue(t, hash, customerId, ctx, random, issuedAt, lifetime, true).0.Ok?
    requires forall id :: id in t.rows ==> !PendingWith(t.rows[id], hash(BinToHex(random)))
    requires lateAt > issuedAt + lifetime * 60
    ensures
      var (issued, t1) := Issue(t, hash, customerId, ctx, random, issuedAt, lifetime, true);
      var id, token := issued.value.logId, issued.value.token;
      var (found, t2) := Validate(t1, hash, token, lateAt, true);
      && found == None
      && t2.rows == t1.rows[id := t1.rows[id].(status := Some(STATUS_EXPIRED))]
      && Validate(t2, hash, token, laterAt, true) == (None, t2)
  {
  }

  /**
   * Only the token's hash reaches the table: two random blocks whose tokens
   * hash alike leave identical tables, whatever the tokens themselves are.
   */
  lemma StoredRowDependsOnlyOnHash(
    t: Table, hash: string -> string, customerId: int, ctx: IssueContext, r1: RandomBlock, r2: RandomBlock,
    now: int, lifetime: int, saveOk: bool)
    requires t.Valid()
    requires hash(BinToHex(r1)) == hash(BinToHex(r2))
    ensures Issue(t, hash, customerId, ctx, r1, now, lifetime, saveOk).1 == Issue(t, hash, customerId, ctx, r2, now, lifetime, saveOk).1
  {
  }

  // ---- the service -------------------------------------------------------------

  class TokenService {
    var table: Table
    const hash: string -> string
    const config: Config.ScopeConfig

    constructor (table: Table, hash: string -> string, config: Config.ScopeConfig)
      requires table.Valid()
      ensures this.table == table && this.hash == hash && this.config == config
    {
      this.table := table;
      this.hash := hash;
      this.config := config;
    }

    /** The resource model's save; `saveOk` is whether the database accepts the write. */
    method Save(log: AuditLog, saveOk: bool) returns (saved: bool)
      requires table.Valid()
      modifies this, log
      ensures ExpiryIfPending(old(log.data)) ==> table.Valid()
      ensures saved == saveOk
      ensures saved ==> (table, log.data) == Persist(old(table), old(log.data))
      ensures !saved ==> table == old(table) && log.data == old(log.data)
    {
      if !saveOk {
        return false;
      }
      match log.GetEntityId() {
        case None =>
          var id := table.nextId;
          log.SetEntityId(id);
          table := Table(table.rows[id := log.data], id + 1);
        case Some(id) =>
          if id in table.rows {
            table := table.(rows := table.rows[id := log.data]);
          }
      }
      return true;
    }

    method GenerateToken(customerId: int, ctx: IssueContext, random: RandomBlock, now: int, saveOk: bool)
      returns (r: Result<TokenData>)
      requires table.Valid()
      modifies this
      ensures table.Valid()
      ensures (r, table) == Issue(old(table), hash, customerId, ctx, random, now, Config.GetTokenLifetime(config), saveOk)
    {
      if customerId !in ctx.customers {
        return Err(MSG_CUSTOMER_MISSING);
      }
      var customer := ctx.customers[customerId];
      if ctx.admin.None? || ctx.admin.value.id == 0 {
        return Err(MSG_ADMIN_MISSING);
      }
      var admin := ctx.admin.value;

      var token := BinToHex(random);
      var tokenHash := hash(token);
      var expiryTime := now + Config.GetTokenLifetime(config) * 60;

      var log := new AuditLog();
      log.SetAdminId(admin.id);
      log.SetAdminUsername(admin.username);
      log.SetCustomerId(customerId);
      log.SetCustomerEmail(customer.email);
      log.SetTokenHash(tokenHash);
      log.SetIpAddress(ctx.remoteAddress);
      log.SetStatus(STATUS_PENDING);
      log.SetStoreId(ctx.storeId);
      log.SetExpiresAt(expiryTime);

      var saved := Save(log, saveOk);
      if !saved {
        return Err(MSG_GENERATION_FAILED);
      }
      r := Ok(TokenData(token, log.GetEntityId().value));
    }

    /**
     * Returns the matching PENDING record as a fresh model, or null;
     * `raised` when the lookup query itself fails (`queryOk` false).
     */
    method ValidateToken(token: string, now: int, queryOk: bool, saveOk: bool)
      returns (log: AuditLog?, raised: bool)
      requires table.Valid()
      modifies this
      ensures table.Valid()
      ensures raised == !queryOk
      ensures raised ==> log == null && table == old(table)
      ensures log != null ==> fresh(log)
      ensures !raised ==>
                (if log == null then None else Some(log.data), table) == Validate(old(table), hash, token, now, saveOk)
    {
      var tokenHash := hash(token);
      if !queryOk {
        return null, true;
      }
      var found := FirstPending(table, tokenHash);
      var item: AuditLog;
      if found.Some? {
        item := new AuditLog.Loaded(table.rows[found.value]);
      } else {
        item := new AuditLog();
      }
      if item.GetEntityId().None? || item.GetEntityId() == Some(0) {
        return null, false;
      }

      if IsExpired(now, item.GetExpiresAt().value) {
        item.SetStatus(STATUS_EXPIRED);
        var saved := Save(item, saveOk);
        return null, false;
      }
      return item, false;
    }

    method MarkTokenAsUsed(log: AuditLog, now: int, saveOk: bool)
      requires table.Valid()
      modifies this, log
      ensures table.Valid()
      ensures (table, log.data) == MarkUsed(old(table), old(log.data), now, saveOk)
    {
      log.SetStatus(STATUS_SUCCESS);
      log.SetUsedAt(now);
      var saved := Save(log, saveOk);
    }

    method MarkTokenAsFailed(log: AuditLog, saveOk: bool)
      requires table.Valid()
      modifies this, log
      ensures table.Valid()
      ensures (table, log.data) == MarkFailed(old(table), old(log.data), saveOk)
    {
      log.SetStatus(STATUS_FAILED);
      var saved := Save(log, saveOk);
    }
  }
}
