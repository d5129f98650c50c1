/** `ChannelView`, the channel page: its subscriber count label and the button that
    subscribes to the shown channel or unsubscribes from it. */
module ChannelPage {
  import opened Wrappers
  import opened Text
  import opened SubscriptionModel
  import opened Navigation
  import ChannelModel
  import VideoRow

  /** `formatSubCount`, the page's own copy of the count formatter. */
  function FormatSubCount(n: nat): (s: string)
    ensures n < 1000 ==> s == NatToString(n)
  {
    if n < 1000 then NatToString(n)
    else if n < 1_000_000 then VideoRow.Mantissa(n, 1000) + "k"
    else VideoRow.Mantissa(n, 1_000_000) + "M"
  }

  /** The page's copy prints every count exactly as the row's `formatViews` does. */
  lemma FormatSubCountIsFormatViews(n: nat)
    ensures FormatSubCount(n) == VideoRow.FormatViews(n)
  {
  }

  // ------------------------------------------------------------- subscriptions

  /** The feed URL recorded for a new subscription. */
  function FeedUrl(channelID: string): string {
    "https://www.youtube.com/feeds/videos.xml?channel_id=" + channelID
  }

  /** The store holds at most one subscription per id (`@Attribute(.unique)`), so it is
      a map from id to the subscription with that id. */
  predicate KeyedById(store: map<string, Subscription>) {
    forall id :: id in store ==> store[id].id == id
  }

  predicate IsSubscribed(store: map<string, Subscription>, channelID: string) {
    channelID in store
  }

  /** The label of the subscription button. */
  function ButtonLabel(store: map<string, Subscription>, channelID: string): string {
    if IsSubscribed(store, channelID) then "Unsubscribe" else "Subscribe"
  }

  /** `toggleSubscription` on the store: the subscription to `channelID` is deleted
      when there is one; otherwise, once the channel has loaded (`loadedTitle` is its
      title), one is inserted with that title and the feed URL; otherwise nothing
      changes. No other id is touched and ids stay unique. */
  function Toggled(store: map<string, Subscription>, channelID: string, loadedTitle: Option<string>)
    : (r: map<string, Subscription>)
    ensures forall id :: id != channelID ==> (id in r <==> id in store)
    ensures forall id :: id != channelID && id in store ==> r[id] == store[id]
    ensures channelID in r <==> channelID !in store && loadedTitle.Some?
    ensures channelID in r ==> r[channelID] == Subscription(channelID, loadedTitle.value, FeedUrl(channelID))
    ensures KeyedById(store) ==> KeyedById(r)
  {
    if channelID in store then store - {channelID}
    else if loadedTitle.Some? then store[channelID := Subscription(channelID, loadedTitle.value, FeedUrl(channelID))]
    else store
  }

  /** Once the channel has loaded, pressing the button flips its label. */
  lemma ToggleFlipsLabel(store: map<string, Subscription>, channelID: string, title: string)
    ensures ButtonLabel(Toggled(store, channelID, Some(title)), channelID) != ButtonLabel(store, channelID)
  {
  }

  /** Subscribing and then unsubscribing gives back the store as it was. */
  lemma {:induction false} ToggleTwiceRestores(store: map<string, Subscription>, channelID: string, title: string)
    requires channelID !in store
    ensures Toggled(Toggled(store, channelID, Some(title)), channelID, Some(title)) == store
  {
    var once := Toggled(store, channelID, Some(title));
    var twice := Toggled(once, channelID, Some(title));
    assert twice.Keys == store.Keys;
  }

  /** Unsubscribing and subscribing again restores a subscription that carried the
      channel's title and feed URL. */
  lemma {:induction false} UntoggleTwiceRestores(store: map<string, Subscription>, channelID: string, title: string)
    requires channelID in store && store[channelID] == Subscription(channelID, title, FeedUrl(channelID))
    ensures Toggled(Toggled(store, channelID, Some(title)), channelID, Some(title)) == store
  {
    var once := Toggled(store, channelID, Some(title));
    var twice := Toggled(once, channelID, Some(title));
    assert twice.Keys == store.Keys;
  }

  /** The state of the page the button reads and changes. */
  class ChannelView {
    const bindings: Bindings
    var channel: Option<ChannelModel.Channel>
    var store: map<string, Subscription>

    constructor (bindings: Bindings, store: map<string, Subscription>)
      ensures this.bindings == bindings && this.store == store && channel == None
    {
      this.bindings := bindings;
      this.store := store;
      channel := None;
    }

    /** `toggleSubscription`. */
    method ToggleSubscription()
      modifies this`store
      ensures store == Toggled(old(store), bindings.currentChannelID,
                               if channel.Some? then Some(channel.value.title) else None)
    {
      var id := bindings.currentChannelID;
      if id in store {
        store := store - {id};
      } else if channel.Some? {
        store := store[id := Subscription(id, channel.value.title, FeedUrl(id))];
      }
    }
  }
}
