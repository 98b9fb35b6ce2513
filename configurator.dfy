/**
 * The product configurator: a three-key configuration record changed one
 * key at a time, the summary labels looked up from the option lists, the
 * total price from a fixed pricing table, and the device image per colour.
 */
module Configurator {
  import opened Common

  /** The configuration record. The colour is a string at run time, as the cast in the source allows. */
  datatype ConfigState = ConfigState(storage: string, energy: string, color: string)

  /** An option of one of the three pickers; only colour options carry a swatch hex. */
  datatype Choice = Choice(caption: string, value: string, hex: Option<string>)

  const STORAGE_OPTIONS: seq<Choice> := [
    Choice("256 GB HoloFlash", "256", None),
    Choice("512 GB HoloFlash", "512", None),
    Choice("1 TB HoloFlash", "1024", None)
  ]

  const ENERGY_OPTIONS: seq<Choice> := [
    Choice("Edge Core 24h", "standard", None),
    Choice("Edge Core 36h", "extended", None)
  ]

  const COLOR_OPTIONS: seq<Choice> := [
    Choice("Aurora Prism", "aurora", Some("#5c7cff")),
    Choice("Void Black", "void", Some("#0a0a0f")),
    Choice("Ember Glass", "ember", Some("#ff6b4a")),
    Choice("Lunaris Pearl", "lunaris", Some("#c7d2ff"))
  ]

  const BASE_PRICE: int := 1299
  const STORAGE_PRICES: map<string, int> := map["256" := 0, "512" := 180, "1024" := 420]
  const ENERGY_PRICES: map<string, int> := map["standard" := 0, "extended" := 220]

  /** The accent used when no colour option matches. */
  const FALLBACK_ACCENT: string := "#7c8cff"

  // ----- the initial configuration and selectSingle -----

  /** The first option of each list. */
  function InitialState(): (c: ConfigState)
    ensures c.storage == STORAGE_OPTIONS[0].value
    ensures c.energy == ENERGY_OPTIONS[0].value
    ensures c.color == COLOR_OPTIONS[0].value
  {
    ConfigState("256", "standard", "aurora")
  }

  datatype ConfigKey = StorageKey | EnergyKey | ColorKey

  /** The value stored under one key. */
  function Get(c: ConfigState, key: ConfigKey): string {
    match key
    case StorageKey => c.storage
    case EnergyKey => c.energy
    case ColorKey => c.color
  }

  /** `{ ...prev, [key]: value }`: the new value under `key`, every other key kept. */
  function WithKey(c: ConfigState, key: ConfigKey, value: string): (r: ConfigState)
    ensures Get(r, key) == value
    ensures forall k :: k != key ==> Get(r, k) == Get(c, k)
  {
    match key
    case StorageKey => c.(storage := value)
    case EnergyKey => c.(energy := value)
    case ColorKey => c.(color := value)
  }

  /** Selecting the value already there changes nothing; selecting twice keeps the last. */
  lemma WithKeyLaws(c: ConfigState, key: ConfigKey, v: string, w: string)
    ensures WithKey(c, key, Get(c, key)) == c
    ensures WithKey(WithKey(c, key, v), key, w) == WithKey(c, key, w)
  {
  }

  // ----- pricing -----

  /** `table[key] ?? 0`: a key missing from the table costs nothing. */
  function Surcharge(table: map<string, int>, key: string): (r: int)
    ensures key in table ==> r == table[key]
    ensures key !in table ==> r == 0
  {
    if key in table then table[key] else 0
  }

  /** `totalPrice`: base price plus the storage and energy surcharges. */
  function TotalPrice(c: ConfigState): (r: int)
    ensures BASE_PRICE <= r <= BASE_PRICE + 420 + 220
    ensures r == BASE_PRICE + Surcharge(STORAGE_PRICES, c.storage) + Surcharge(ENERGY_PRICES, c.energy)
  {
    BASE_PRICE + Surcharge(STORAGE_PRICES, c.storage) + Surcharge(ENERGY_PRICES, c.energy)
  }

  /** The price depends on storage and energy only: choosing a colour never changes it. */
  lemma PriceIgnoresColor(c: ConfigState, color: string)
    ensures TotalPrice(WithKey(c, ColorKey, color)) == TotalPrice(c)
  {
  }

  /** Unknown storage or energy values add nothing to the base price. */
  lemma UnknownKeysAddNothing(c: ConfigState)
    ensures c.storage !in STORAGE_PRICES && c.energy !in ENERGY_PRICES ==> TotalPrice(c) == BASE_PRICE
    ensures c.storage !in STORAGE_PRICES ==> TotalPrice(c) == BASE_PRICE + Surcharge(ENERGY_PRICES, c.energy)
    ensures c.energy !in ENERGY_PRICES ==> TotalPrice(c) == BASE_PRICE + Surcharge(STORAGE_PRICES, c.storage)
  {
  }

  /** Every offered storage and energy value is priced. */
  lemma OptionsArePriced()
    ensures forall i :: 0 <= i < |STORAGE_OPTIONS| ==> STORAGE_OPTIONS[i].value in STORAGE_PRICES
    ensures forall i :: 0 <= i < |ENERGY_OPTIONS| ==> ENERGY_OPTIONS[i].value in ENERGY_PRICES
  {
  }

  /** A storage tier further down the list never costs less, whatever the other keys. */
  lemma StorageTierMonotone(i: int, j: int, energy: string, color: string)
    requires 0 <= i <= j < |STORAGE_OPTIONS|
    ensures TotalPrice(ConfigState(STORAGE_OPTIONS[i].value, energy, color))
         <= TotalPrice(ConfigState(STORAGE_OPTIONS[j].value, energy, color))
  {
  }

  /** The extended battery never costs less than the standard one. */
  lemma EnergyTierMonotone(storage: string, color: string)
    ensures TotalPrice(ConfigState(storage, ENERGY_OPTIONS[0].value, color))
         <= TotalPrice(ConfigState(storage, ENERGY_OPTIONS[1].value, color))
  {
  }

  /** The initial configuration costs the base price. */
  lemma InitialPrice()
    ensures TotalPrice(InitialState()) == BASE_PRICE
  {
  }

  // ----- summary -----

  /** `options.find((o) => o.value === value)`: the first option with that value. */
  function FindChoice(options: seq<Choice>, value: string): (r: Option<Choice>)
    ensures r.None? <==> forall i :: 0 <= i < |options| ==> options[i].value != value
    ensures r.Some? ==>
      exists i :: 0 <= i < |options| && options[i] == r.value && options[i].value == value
                  && forall j :: 0 <= j < i ==> options[j].value != value
  {
    if options == [] then None
    else if options[0].value == value then Some(options[0])
    else
      var rest := FindChoice(options[1..], value);
      assert forall i :: 1 <= i < |options| ==> options[i] == options[1..][i - 1];
      rest
  }

  /** The option values of a list are distinct, so a lookup has one candidate. */
  predicate DistinctValues(options: seq<Choice>) {
    forall i, j :: 0 <= i < j < |options| ==> options[i].value != options[j].value
  }

  /** With distinct values, the lookup of an option's value is that option. */
  lemma FindChoiceOfOption(options: seq<Choice>, i: int)
    requires DistinctValues(options)
    requires 0 <= i < |options|
    ensures FindChoice(options, options[i].value) == Some(options[i])
  {
    var r := FindChoice(options, options[i].value);
    var k :| 0 <= k < |options| && options[k] == r.value && options[k].value == options[i].value
             && forall j :: 0 <= j < k ==> options[j].value != options[i].value;
    assert k == i;
  }

  /** What the summary shows: the matching labels and colour option, or nothing. */
  datatype Summary = Summary(storage: Option<string>, energy: Option<string>, color: Option<Choice>)

  function LabelOf(options: seq<Choice>, value: string): (r: Option<string>)
    ensures r.None? <==> FindChoice(options, value).None?
    ensures r.Some? ==> r.value == FindChoice(options, value).value.caption
  {
    match FindChoice(options, value)
    case Some(o) => Some(o.caption)
    case None => None
  }

  /** `summary`: the three lookups of the current values. */
  function SummaryOf(c: ConfigState): (r: Summary)
    ensures r.storage.None? <==> forall i :: 0 <= i < |STORAGE_OPTIONS| ==> STORAGE_OPTIONS[i].value != c.storage
    ensures r.energy.None? <==> forall i :: 0 <= i < |ENERGY_OPTIONS| ==> ENERGY_OPTIONS[i].value != c.energy
    ensures r.color.None? <==> forall i :: 0 <= i < |COLOR_OPTIONS| ==> COLOR_OPTIONS[i].value != c.color
    ensures r.color.Some? ==> r.color.value.value == c.color
  {
    Summary(LabelOf(STORAGE_OPTIONS, c.storage), LabelOf(ENERGY_OPTIONS, c.energy),
            FindChoice(COLOR_OPTIONS, c.color))
  }

  /** For a configuration of offered values, the summary shows each option's own label. */
  lemma SummaryOfOffered(i: int, j: int, k: int)
    requires 0 <= i < |STORAGE_OPTIONS| && 0 <= j < |ENERGY_OPTIONS| && 0 <= k < |COLOR_OPTIONS|
    ensures SummaryOf(ConfigState(STORAGE_OPTIONS[i].value, ENERGY_OPTIONS[j].value, COLOR_OPTIONS[k].value))
      == Summary(Some(STORAGE_OPTIONS[i].caption), Some(ENERGY_OPTIONS[j].caption), Some(COLOR_OPTIONS[k]))
  {
    FindChoiceOfOption(STORAGE_OPTIONS, i);
    FindChoiceOfOption(ENERGY_OPTIONS, j);
    FindChoiceOfOption(COLOR_OPTIONS, k);
  }

  /** The preview accent and summary swatch: the selected colour's hex, else the fallback. */
  function AccentHex(c: ConfigState): (r: string)
    ensures FindChoice(COLOR_OPTIONS, c.color).None? ==> r == FALLBACK_ACCENT
    ensures forall k :: 0 <= k < |COLOR_OPTIONS| && COLOR_OPTIONS[k].value == c.color ==>
      Some(r) == COLOR_OPTIONS[k].hex
  {
    assert DistinctValues(COLOR_OPTIONS);
    match FindChoice(COLOR_OPTIONS, c.color)
    case Some(o) => o.hex.GetOr(FALLBACK_ACCENT)
    case None => FALLBACK_ACCENT
  }

  // ----- device image -----

  datatype DeviceImage = AuroraImage | VoidImage | EmberImage | LunarisImage

  /** `deviceImages[color] ?? deviceImages.aurora`. */
  function DeviceForColor(color: string): (r: DeviceImage)
    ensures color == "void" <==> r == VoidImage
    ensures color == "ember" <==> r == EmberImage
    ensures color == "lunaris" <==> r == LunarisImage
    ensures r == AuroraImage <==> color != "void" && color != "ember" && color != "lunaris"
  {
    if color == "void" then VoidImage
    else if color == "ember" then EmberImage
    else if color == "lunaris" then LunarisImage
    else AuroraImage
  }

  /** Each offered colour has its own image. */
  lemma OfferedColorsHaveDistinctImages(i: int, j: int)
    requires 0 <= i < j < |COLOR_OPTIONS|
    ensures DeviceForColor(COLOR_OPTIONS[i].value) != DeviceForColor(COLOR_OPTIONS[j].value)
  {
  }

  // ----- the component's state -----

  class ConfiguratorView {
    var configuration: ConfigState

    constructor ()
      ensures configuration == InitialState()
    {
      configuration := InitialState();
    }

    /** `selectSingle(key, value)`. */
    method SelectSingle(key: ConfigKey, value: string)
      modifies this
      ensures configuration == WithKey(old(configuration), key, value)
      ensures Get(configuration, key) == value
      ensures forall k :: k != key ==> Get(configuration, k) == Get(old(configuration), k)
      ensures key == ColorKey ==> TotalPrice(configuration) == TotalPrice(old(configuration))
    {
      configuration := WithKey(configuration, key, value);
    }

    /** The price the summary and the reserve button show. */
    method ShownPrice() returns (price: int)
      ensures price == TotalPrice(configuration)
      ensures BASE_PRICE <= price <= BASE_PRICE + 420 + 220
    {
      price := TotalPrice(configuration);
    }

    /** The image shown in the preview. */
    method ShownDevice() returns (image: DeviceImage)
      ensures image == DeviceForColor(configuration.color)
      ensures FindChoice(COLOR_OPTIONS, configuration.color).None? ==> image == AuroraImage
    {
      image := DeviceForColor(configuration.color);
    }
  }
}
