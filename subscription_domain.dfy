/** The subscription record in its two shapes: the domain object that the
    repository hands out, and the row that the `subscriptions` table stores. */
module SubscriptionDomain {
  import opened Store

  /** The `frequency` enum column: 'hourly' | 'daily'. */
  datatype Frequency = Hourly | Daily

  /** The domain object (subscription.model.ts). It has no token. */
  datatype Subscription = Subscription(
    id: Id,
    email: string,
    city: string,
    frequency: Frequency,
    confirmed: bool)

  /** A row of the `subscriptions` table (subscription.entity.ts and the
      migration that creates the table): the domain fields plus the token. */
  datatype SubscriptionEntity = SubscriptionEntity(
    id: Id,
    email: string,
    city: string,
    frequency: Frequency,
    confirmed: bool,
    token: string)
}
