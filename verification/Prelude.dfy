/** Types every part of the model shares. */
module Prelude {

  /** A UUID. Only equality and the order PostgreSQL gives UUIDs are used; the nil UUID is 0. */
  type Id = nat

  datatype Option<+T> = None | Some(value: T)

  /** The refusals of `ApiError` that the modelled services can return. */
  datatype Error = NotFound | Conflict | Forbidden | BadRequest

  /** What the owner switched on for one staff member. */
  datatype Permissions = Permissions(
    manageProducts: bool, recordExpenses: bool, viewProfit: bool, deleteRecords: bool)

  /** The owner (no staff id), or a staff member with a grant. */
  datatype Actor = Owner | Staff(staffId: Id, grant: Permissions) {

    predicate CanManageProducts() { Owner? || grant.manageProducts }

    predicate CanRecordExpenses() { Owner? || grant.recordExpenses }

    predicate CanViewProfit() { Owner? || grant.viewProfit }

    predicate CanDeleteRecords() { Owner? || grant.deleteRecords }

    function StaffId(): Option<Id> {
      if Owner? then None else Some(staffId)
    }
  }
}
