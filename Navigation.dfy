/** The state the views share through SwiftUI bindings: which sidebar page is shown,
    the video and channel it shows, and the in-memory subscription list. */
module Navigation {
  import opened SubscriptionModel

  /** `SidebarSelection`: the pages the sidebar can select. */
  datatype SidebarSelection = Subscriptions | Channel | Search | WatchVideo

  /** The `@Binding` variables the page views read and assign. */
  class Bindings {
    var selection: SidebarSelection
    var currentVideoID: string
    var currentChannelID: string
    var subscriptions: seq<Subscription>

    constructor (selection: SidebarSelection, subscriptions: seq<Subscription>)
      ensures this.selection == selection && this.subscriptions == subscriptions
      ensures currentVideoID == "" && currentChannelID == ""
    {
      this.selection := selection;
      this.subscriptions := subscriptions;
      currentVideoID := "";
      currentChannelID := "";
    }
  }
}
