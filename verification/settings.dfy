/** The settings slice: the system settings as key/value records. */
module Settings {
  import opened Wrappers
  import Slice

  datatype SystemSetting = SystemSetting(key: string, value: string, description: string)

  type State = Slice.Listed<SystemSetting>

  datatype Action =
    | FetchPending
    | FetchFulfilled(settings: seq<SystemSetting>)
    | FetchRejected(reason: Option<string>)
    | UpdatePending
    | UpdateFulfilled
    | UpdateRejected(reason: Option<string>)

  function Initial(): State { Slice.InitialListed() }

  /** `settingsSlice.reducer`. Only a fetch replaces the settings (an update relies on the
      refetch that follows it), and every handler leaves the error alone unless it rejects. */
  function Reduce(s: State, a: Action): (r: State)
    ensures !a.FetchFulfilled? ==> r.items == s.items
    ensures a.FetchFulfilled? ==> r.items == a.settings
    ensures !a.FetchRejected? && !a.UpdateRejected? ==> r.error == s.error
    ensures a.UpdatePending? ==> r == s.(status := Slice.Loading)
    ensures a.UpdateFulfilled? ==> r == s.(status := Slice.Succeeded)
  {
    match a
    case FetchPending => Slice.ListPending(s)
    case FetchFulfilled(settings) => Slice.ListLoaded(s, settings)
    case FetchRejected(reason) => Slice.ListRejected(s, reason)
    case UpdatePending => Slice.ListPending(s)
    case UpdateFulfilled => s.(status := Slice.Succeeded)
    case UpdateRejected(reason) => Slice.ListRejected(s, reason)
  }
}
