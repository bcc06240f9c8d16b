/** Firmware selection: the catalog of builds per device, the build list
    offered for the selected device, and the rule that turns the form's
    custom URL, device and build fields into the image to flash. */
module Firmware {
  import opened Options
  import opened JsText

  /** One firmware image: display name, download URL and the flash address,
      kept as the text the catalog gives (for example "0x1000"). */
  datatype Descriptor = Descriptor(name: string, url: string, flashOffset: string)

  /** The catalog: device key to the ordered list of its builds. */
  type Catalog = map<string, seq<Descriptor>>

  /** The three form fields the selection reads: the custom URL text box and
      the values of the device and build drop-downs. */
  datatype Selection = Selection(customUrl: string, device: string, build: string)

  /** One entry of the build drop-down. */
  datatype BuildOption = BuildOption(value: string, text: string)

  const CustomName: string := "Custom"
  const CustomOffset: string := "0x0"

  /** The builds of `device`; a device the catalog lacks has none. */
  function Builds(catalog: Catalog, device: string): seq<Descriptor> {
    if device in catalog then catalog[device] else []
  }

  /** The build position a drop-down value denotes: its integer prefix, with
      NaN (and zero) giving 0. The only falsy numbers are NaN and zero, so
      JavaScript's `parseInt(v, 10) || 0` is `GetOr(0)`. */
  function BuildIndex(value: string): int {
    ParseInt(value).GetOr(0)
  }

  /** The firmware a flash uses. A custom URL that is not blank wins, under a
      fixed name and base address, whatever the drop-downs say; otherwise the
      build drop-down's position in the selected device's list, and nothing
      when that position does not exist. */
  function Resolve(sel: Selection, catalog: Catalog): (r: Option<Descriptor>)
    ensures !AllWhitespace(sel.customUrl) ==>
      r == Some(Descriptor(CustomName, Trim(sel.customUrl), CustomOffset))
    ensures AllWhitespace(sel.customUrl) ==>
      (r.Some? <==> sel.device in catalog && 0 <= BuildIndex(sel.build) < |catalog[sel.device]|)
    ensures AllWhitespace(sel.customUrl) && r.Some? ==>
      r.value == catalog[sel.device][BuildIndex(sel.build)]
  {
    var url := Trim(sel.customUrl);
    if url != [] then
      Some(Descriptor(CustomName, url, CustomOffset))
    else
      var index := BuildIndex(sel.build);
      var builds := Builds(catalog, sel.device);
      if 0 <= index < |builds| then Some(builds[index]) else None
  }

  /** The build drop-down for `device`: one entry per build, labelled with the
      build's name, whose value is the build's position written in decimal. */
  function BuildOptions(catalog: Catalog, device: string): (r: seq<BuildOption>)
    ensures |r| == |Builds(catalog, device)|
    ensures forall i :: 0 <= i < |r| ==>
      && r[i].text == Builds(catalog, device)[i].name
      && r[i].value == NatToString(i)
      && BuildIndex(r[i].value) == i
  {
    var builds := Builds(catalog, device);
    AllNumeralsRoundTrip();
    seq(|builds|, i requires 0 <= i < |builds| => BuildOption(NatToString(i), builds[i].name))
  }

  lemma AllNumeralsRoundTrip()
    ensures forall n: nat {:trigger NatToString(n)} :: ParseInt(NatToString(n)) == Some(n)
  {
    forall n: nat {
      NumeralRoundTrip(n);
    }
  }

  /** A non-blank custom URL decides the result alone: neither the catalog
      nor the drop-downs matter. */
  lemma CustomUrlWins(url: string, device: string, build: string, catalog: Catalog,
                      device': string, build': string, catalog': Catalog)
    requires !AllWhitespace(url)
    ensures Resolve(Selection(url, device, build), catalog)
         == Resolve(Selection(url, device', build'), catalog')
    ensures Resolve(Selection(url, device, build), catalog).value.url == Trim(url)
  {
  }

  /** Every entry of the build drop-down selects the build it is labelled
      with: with a blank custom URL, choosing entry `i` resolves to build `i`. */
  lemma OptionsResolveBack(catalog: Catalog, device: string, url: string, i: int)
    requires AllWhitespace(url)
    requires 0 <= i < |BuildOptions(catalog, device)|
    ensures Resolve(Selection(url, device, BuildOptions(catalog, device)[i].value), catalog)
         == Some(catalog[device][i])
    ensures catalog[device][i].name == BuildOptions(catalog, device)[i].text
  {
  }

  /** Distinct drop-down entries carry distinct values. */
  lemma OptionValuesDistinct(catalog: Catalog, device: string, i: int, j: int)
    requires 0 <= i < j < |BuildOptions(catalog, device)|
    ensures BuildOptions(catalog, device)[i].value != BuildOptions(catalog, device)[j].value
  {
  }

  /** A build value with no number in it selects the first build. */
  lemma NonNumericBuildIsFirst(url: string, device: string, build: string, catalog: Catalog)
    requires AllWhitespace(url)
    requires ParseInt(build).None?
    ensures Resolve(Selection(url, device, build), catalog)
         == Resolve(Selection(url, device, "0"), catalog)
    ensures Resolve(Selection(url, device, build), catalog).Some?
        <==> device in catalog && |catalog[device]| > 0
  {
    NumeralRoundTrip(0);
    assert NatToString(0) == "0";
  }

  /** An empty build drop-down reads as "" and so also means the first build. */
  lemma EmptyBuildIsFirst(url: string, device: string, catalog: Catalog)
    requires AllWhitespace(url)
    ensures Resolve(Selection(url, device, ""), catalog)
         == Resolve(Selection(url, device, "0"), catalog)
  {
    NonNumericBuildIsFirst(url, device, "", catalog);
  }
}
