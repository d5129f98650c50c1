/** A subscription to a channel. The in-memory list compares subscriptions by all three
    fields; the persistent store keeps at most one per `id`. */
module SubscriptionModel {
  /** `Subscription`: the channel's id, its title and a URL for it (kept as its string). */
  datatype Subscription = Subscription(id: string, title: string, url: string)
}
