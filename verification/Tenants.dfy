/**
 What every part of the control plane calls a tenant.
 */
module Tenants {
  type TenantId = nat

  datatype Status = PENDING | PROVISIONING | INITIALIZING | READY | FAILED | SUSPENDED
}
