/**
 * The records the cloud returns, reduced to the fields the tool reads
 * (src/shared/bll.ts). Everything else in those records is never consulted.
 */
module Bll {
  datatype Tenant = Tenant(tenantId: string)

  datatype Subscription = Subscription(subscriptionId: string, displayName: string)

  datatype ResourceGroup = ResourceGroup(name: string, location: string)

  datatype Sku = Sku(name: string, tier: string)

  /** A hosting plan (server farm) lives in one resource group. */
  datatype Plan = Plan(name: string, resourceGroup: string, location: string, sku: Sku)

  /** A site; `serverFarmId` is whatever the tool passed when creating it. */
  datatype Website = Website(name: string, resourceGroup: string, location: string, serverFarmId: string)

  /** The site-scoped deployment credentials. */
  datatype PublishingCredentials = PublishingCredentials(publishingUserName: string, publishingPassword: string)
}
