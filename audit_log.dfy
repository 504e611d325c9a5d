/**
 * One row of the login-as-customer audit log: the status constants and the
 * model object whose setters write one key of its data array each.
 */
module AuditLogModel {
  import opened Wrappers

  const STATUS_PENDING: string := "pending"
  const STATUS_SUCCESS: string := "success"
  const STATUS_EXPIRED: string := "expired"
  const STATUS_FAILED: string := "failed"

  /** Every status a record can carry, PENDING first. */
  const STATUSES: seq<string> := [STATUS_PENDING, STATUS_SUCCESS, STATUS_EXPIRED, STATUS_FAILED]

  /** The three statuses a record leaves PENDING for. */
  predicate IsTerminal(status: Option<string>) {
    status == Some(STATUS_SUCCESS) || status == Some(STATUS_EXPIRED) || status == Some(STATUS_FAILED)
  }

  lemma StatusesDistinct()
    ensures forall i, j :: 0 <= i < j < |STATUSES| ==> STATUSES[i] != STATUSES[j]
    ensures !IsTerminal(Some(STATUS_PENDING))
  {
  }

  /**
   * The model's data array, one entry per column; an entry is None (PHP's
   * null) until its setter has run or the row was loaded. Timestamps are
   * integer seconds.
   */
  datatype LogData = LogData(
    entityId: Option<nat>,
    adminId: Option<int>,
    adminUsername: Option<string>,
    customerId: Option<int>,
    customerEmail: Option<string>,
    tokenHash: Option<string>,
    ipAddress: Option<string>,
    status: Option<string>,
    storeId: Option<int>,
    createdAt: Option<int>,
    expiresAt: Option<int>,
    usedAt: Option<int>)

  /** What a freshly created model holds: nothing. */
  const EMPTY: LogData :=
    LogData(None, None, None, None, None, None, None, None, None, None, None, None)

  class AuditLog {
    var data: LogData

    /** The factory's `create()`: a model with an empty data array. */
    constructor ()
      ensures data == EMPTY
      ensures GetEntityId() == None
    {
      data := EMPTY;
    }

    /** A model hydrated from a stored row, as a collection returns it. */
    constructor Loaded(row: LogData)
      ensures data == row
    {
      data := row;
    }

    function GetEntityId(): Option<nat> reads this { data.entityId }
    function GetAdminId(): Option<int> reads this { data.adminId }
    function GetAdminUsername(): Option<string> reads this { data.adminUsername }
    function GetCustomerId(): Option<int> reads this { data.customerId }
    function GetCustomerEmail(): Option<string> reads this { data.customerEmail }
    function GetTokenHash(): Option<string> reads this { data.tokenHash }
    function GetIpAddress(): Option<string> reads this { data.ipAddress }
    function GetStatus(): Option<string> reads this { data.status }
    function GetStoreId(): Option<int> reads this { data.storeId }
    function GetCreatedAt(): Option<int> reads this { data.createdAt }
    function GetExpiresAt(): Option<int> reads this { data.expiresAt }
    function GetUsedAt(): Option<int> reads this { data.usedAt }

    method SetEntityId(entityId: nat)
      modifies this
      ensures GetEntityId() == Some(entityId)
      ensures data == old(data).(entityId := Some(entityId))
    {
      data := data.(entityId := Some(entityId));
    }

    method SetAdminId(adminId: int)
      modifies this
      ensures GetAdminId() == Some(adminId)
      ensures data == old(data).(adminId := Some(adminId))
    {
      data := data.(adminId := Some(adminId));
    }

    method SetAdminUsername(username: string)
      modifies this
      ensures GetAdminUsername() == Some(username)
      ensures data == old(data).(adminUsername := Some(username))
    {
      data := data.(adminUsername := Some(username));
    }

    method SetCustomerId(customerId: int)
      modifies this
      ensures GetCustomerId() == Some(customerId)
      ensures data == old(data).(customerId := Some(customerId))
    {
      data := data.(customerId := Some(customerId));
    }

    method SetCustomerEmail(email: string)
      modifies this
      ensures GetCustomerEmail() == Some(email)
      ensures data == old(data).(customerEmail := Some(email))
    {
      data := data.(customerEmail := Some(email));
    }

    method SetTokenHash(hash: string)
      modifies this
      ensures GetTokenHash() == Some(hash)
      ensures data == old(data).(tokenHash := Some(hash))
    {
      data := data.(tokenHash := Some(hash));
    }

    /** The remote address may be absent (PHP's false), which is stored as null. */
    method SetIpAddress(ipAddress: Option<string>)
      modifies this
      ensures GetIpAddress() == ipAddress
      ensures data == old(data).(ipAddress := ipAddress)
    {
      data := data.(ipAddress := ipAddress);
    }

    method SetStatus(status: string)
      modifies this
      ensures GetStatus() == Some(status)
      ensures data == old(data).(status := Some(status))
    {
      data := data.(status := Some(status));
    }

    method SetStoreId(storeId: int)
      modifies this
      ensures GetStoreId() == Some(storeId)
      ensures data == old(data).(storeId := Some(storeId))
    {
      data := data.(storeId := Some(storeId));
    }

    method SetCreatedAt(createdAt: int)
      modifies this
      ensures GetCreatedAt() == Some(createdAt)
      ensures data == old(data).(createdAt := Some(createdAt))
    {
      data := data.(createdAt := Some(createdAt));
    }

    method SetExpiresAt(expiresAt: int)
      modifies this
      ensures GetExpiresAt() == Some(expiresAt)
      ensures data == old(data).(expiresAt := Some(expiresAt))
    {
      data := data.(expiresAt := Some(expiresAt));
    }

    method SetUsedAt(usedAt: int)
      modifies this
      ensures GetUsedAt() == Some(usedAt)
      ensures data == old(data).(usedAt := Some(usedAt))
    {
      data := data.(usedAt := Some(usedAt));
    }
  }
}
