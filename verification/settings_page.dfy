/** `SettingsPage`: the system settings as one form, whose fields are grouped by key prefix. */
module SettingsPage {
  import opened Wrappers
  import opened Toasts
  import Seqs
  import Strings
  import Slice
  import Settings

  type Setting = Settings.SystemSetting

  predicate HasKey(settings: seq<Setting>, key: string)
  {
    exists i :: 0 <= i < |settings| && settings[i].key == key
  }

  /** The position of the last setting with `key`, or -1. */
  function LastIndexOf(settings: seq<Setting>, key: string): (k: int)
    ensures -1 <= k < |settings|
    ensures k == -1 <==> !HasKey(settings, key)
    ensures k >= 0 ==> settings[k].key == key
    ensures k >= 0 ==> forall i :: k < i < |settings| ==> settings[i].key != key
  {
    if |settings| == 0 then -1
    else if settings[|settings| - 1].key == key then |settings| - 1
    else LastIndexOf(settings[..|settings| - 1], key)
  }

  /** The form defaults, `settings.reduce((acc, s) => { acc[s.key] = s.value; ... }, {})`: one
      entry per key, holding the value of the last setting with that key. */
  function Defaults(settings: seq<Setting>): (m: map<string, string>)
    ensures forall key :: key in m <==> HasKey(settings, key)
    ensures forall key :: key in m ==> m[key] == settings[LastIndexOf(settings, key)].value
  {
    if |settings| == 0 then map[]
    else
      var init := settings[..|settings| - 1];
      var last := settings[|settings| - 1];
      assert forall key :: HasKey(settings, key) <==> HasKey(init, key) || key == last.key by {
        forall key | HasKey(settings, key) ensures HasKey(init, key) || key == last.key {
          var i :| 0 <= i < |settings| && settings[i].key == key;
          if i < |settings| - 1 { assert init[i] == settings[i]; }
        }
        forall key | HasKey(init, key) ensures HasKey(settings, key) {
          var i :| 0 <= i < |init| && init[i].key == key;
          assert settings[i] == init[i];
        }
      }
      Defaults(init)[last.key := last.value]
  }

  /** With keys that do not repeat, every setting's own value is its default. */
  lemma DefaultsOfDistinctKeys(settings: seq<Setting>, i: int)
    requires 0 <= i < |settings|
    requires forall a, b :: 0 <= a < b < |settings| ==> settings[a].key != settings[b].key
    ensures settings[i].key in Defaults(settings)
    ensures Defaults(settings)[settings[i].key] == settings[i].value
  {
    var k := LastIndexOf(settings, settings[i].key);
    assert HasKey(settings, settings[i].key);
    assert k == i;
  }

  /** The reset effect: the form is reset to the defaults only once there is a setting. */
  function ResetOnLoad(settings: seq<Setting>): (r: Option<map<string, string>>)
    ensures r.Some? <==> |settings| > 0
    ensures r.Some? ==> r.value == Defaults(settings)
  {
    if |settings| > 0 then Some(Defaults(settings)) else None
  }

  /** `s => s.key.startsWith(prefix)`. */
  function KeyStarts(prefix: string): Setting -> bool
  {
    (s: Setting) => Strings.StartsWith(s.key, prefix)
  }

  /** The settings of one card: those whose key starts with `prefix`, in order. */
  function Group(settings: seq<Setting>, prefix: string): (g: seq<Setting>)
    ensures forall x :: x in g <==> x in settings && Strings.StartsWith(x.key, prefix)
  {
    var g := Seqs.Filter(settings, KeyStarts(prefix));
    assert forall x :: x in g ==> KeyStarts(prefix)(x) by {
      forall x | x in g ensures KeyStarts(prefix)(x) { var i :| 0 <= i < |g| && g[i] == x; }
    }
    g
  }

  /** The service-price card: the `PRICE_` settings. */
  function PriceGroup(settings: seq<Setting>): seq<Setting>
  {
    Group(settings, "PRICE_")
  }

  /** The bank card: the `BANK_` settings. */
  function BankGroup(settings: seq<Setting>): seq<Setting>
  {
    Group(settings, "BANK_")
  }

  /** No setting is rendered in both cards, and a setting with neither prefix in none. */
  lemma GroupsPartition(settings: seq<Setting>, x: Setting)
    ensures !(x in PriceGroup(settings) && x in BankGroup(settings))
    ensures !Strings.StartsWith(x.key, "PRICE_") && !Strings.StartsWith(x.key, "BANK_") ==>
              x !in PriceGroup(settings) && x !in BankGroup(settings)
  {
    Strings.StartsWithExclusive(x.key, "PRICE_", "BANK_", 0);
  }

  /** Both groups keep the order the settings arrived in. */
  lemma GroupsKeepOrder(a: seq<Setting>, b: seq<Setting>)
    ensures PriceGroup(a + b) == PriceGroup(a) + PriceGroup(b)
    ensures BankGroup(a + b) == BankGroup(a) + BankGroup(b)
  {
    Seqs.FilterConcat(a, b, KeyStarts("PRICE_"));
    Seqs.FilterConcat(a, b, KeyStarts("BANK_"));
  }

  /** What the page shows in place of the form content. */
  datatype Content =
    | Skeletons(count: nat)
    | Form(price: seq<Setting>, bank: seq<Setting>, inputsDisabled: bool, submitDisabled: bool, submitLoading: bool)

  /** `renderFormContent`: three skeletons while the first load is running, otherwise the two
      cards, with the inputs disabled while submitting and the submit button disabled until the
      form is dirty. */
  function Render(status: Slice.Status, settings: seq<Setting>, isDirty: bool, isSubmitting: bool): (c: Content)
    ensures c.Skeletons? <==> status == Slice.Loading && |settings| == 0
    ensures c.Skeletons? ==> c.count == 3
    ensures c.Form? ==> c.price == PriceGroup(settings) && c.bank == BankGroup(settings)
    ensures c.Form? ==> (c.submitDisabled <==> !isDirty)
    ensures c.Form? ==> c.inputsDisabled == isSubmitting && c.submitLoading == isSubmitting
  {
    if status == Slice.Loading && |settings| == 0 then Skeletons(3)
    else Form(PriceGroup(settings), BankGroup(settings), isSubmitting, !isDirty, isSubmitting)
  }

  /** After `updateSettings` settles: a success toast and a refetch, or the rejection's
      message and no refetch. */
  function UpdateSettled(outcome: Settled): (r: (Toast, bool))
    ensures r.1 <==> outcome.Resolved?
    ensures r.0.Success? <==> outcome.Resolved?
    ensures outcome.Resolved? ==> r.0 == Success("Cập nhật cài đặt thành công!")
    ensures outcome.Rejected? ==> r.0 == Failure(outcome.reason)
  {
    match outcome
    case Resolved => (Success("Cập nhật cài đặt thành công!"), true)
    case Rejected(reason) => (Failure(reason), false)
  }

  /** The refetch after an update brings the backend's settings into the slice, and with a
      non-empty answer the form is reset to exactly their defaults. */
  lemma RefetchResetsForm(s: Settings.State, loaded: seq<Setting>)
    requires |loaded| > 0
    ensures ResetOnLoad(Settings.Reduce(s, Settings.FetchFulfilled(loaded)).items) == Some(Defaults(loaded))
  {
  }
}
