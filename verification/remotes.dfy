/** The infrared remote-code list kept in local storage: saving an entry
    from the form, the per-entry remove button, and clearing the list. */
module Remotes {
  import opened Options
  import opened JsText

  /** One saved remote code. The time it was saved is not modelled. */
  datatype Remote = Remote(
    name: string,
    deviceType: string,
    brand: string,
    protocol: string,
    frequency: int,
    code: string,
    broadcast: bool)

  /** The fields of the remote form, as text. */
  datatype Form = Form(
    name: string,
    deviceType: string,
    brand: string,
    protocol: string,
    frequency: string,
    code: string,
    broadcast: bool)

  /** The stored list under the storage key, `None` when the key is absent. */
  type Storage = Option<seq<Remote>>

  const Required := "Naam en code zijn verplicht"
  const DefaultFrequency := 33

  /** The list as the page reads it: an absent key reads as the empty list. */
  function Stored(storage: Storage): seq<Remote> {
    storage.GetOr([])
  }

  /** The carrier frequency of the form: the integer its text starts with,
      33 when there is none or it is 0 (`parseInt(v, 10) || 33`). */
  function Frequency(text: string): (f: int)
    ensures f != 0
    ensures ParseInt(text).Some? && ParseInt(text).value != 0 ==> f == ParseInt(text).value
    ensures ParseInt(text).None? || ParseInt(text) == Some(0) ==> f == DefaultFrequency
  {
    match ParseInt(text)
    case Some(v) => if v != 0 then v else DefaultFrequency
    case None => DefaultFrequency
  }

  /** The entry a form produces: name, code and protocol trimmed, device type
      and brand as typed. */
  function Entry(form: Form): Remote {
    Remote(Trim(form.name), form.deviceType, form.brand, Trim(form.protocol),
           Frequency(form.frequency), Trim(form.code), form.broadcast)
  }

  /** The form after a save: every field reset except the frequency. */
  function ResetForm(form: Form): Form {
    Form("", "tv", "", "", form.frequency, "", false)
  }

  datatype SaveResult = SaveResult(storage: Storage, form: Form, alert: Option<string>)

  /** `saveRemote`: a name or code that is blank after trimming is refused
      with an alert and nothing changes; otherwise the new entry is put in
      front of the stored list and the form is reset. */
  function Save(storage: Storage, form: Form): (r: SaveResult)
    ensures AllWhitespace(form.name) || AllWhitespace(form.code) ==>
      r == SaveResult(storage, form, Some(Required))
    ensures !AllWhitespace(form.name) && !AllWhitespace(form.code) ==>
      && r.alert.None?
      && r.storage.Some?
      && |Stored(r.storage)| == |Stored(storage)| + 1
      && Stored(r.storage)[1..] == Stored(storage)
      && Stored(r.storage)[0].name == Trim(form.name) && Stored(r.storage)[0].name != ""
      && Stored(r.storage)[0].code == Trim(form.code) && Stored(r.storage)[0].code != ""
      && Stored(r.storage)[0].protocol == Trim(form.protocol)
      && Stored(r.storage)[0].deviceType == form.deviceType
      && Stored(r.storage)[0].brand == form.brand
      && Stored(r.storage)[0].frequency == Frequency(form.frequency)
      && Stored(r.storage)[0].broadcast == form.broadcast
      && r.form == Form("", "tv", "", "", form.frequency, "", false)
  {
    if Trim(form.name) == [] || Trim(form.code) == [] then
      SaveResult(storage, form, Some(Required))
    else
      SaveResult(Some([Entry(form)] + Stored(storage)), ResetForm(form), None)
  }

  /** Where `Array.prototype.splice(start, 1)` removes from a list of length
      `len`: a negative start counts from the end (and stops at the front),
      a start past the end is clamped to the end. */
  function SpliceStart(len: nat, start: int): (k: nat)
    ensures k <= len
    ensures 0 <= start < len ==> k == start
    ensures start >= len ==> k == len
    ensures start < 0 && len + start >= 0 ==> k == len + start
    ensures len + start < 0 ==> k == 0
  {
    if start < 0 then (if len + start < 0 then 0 else len + start)
    else if start < len then start else len
  }

  /** `xs.splice(start, 1)`, the list that remains. */
  function Splice<T>(xs: seq<T>, start: int): (r: seq<T>)
    ensures var k := SpliceStart(|xs|, start);
      if k < |xs| then
        |r| == |xs| - 1
        && (forall i :: 0 <= i < k ==> r[i] == xs[i])
        && (forall i :: k <= i < |r| ==> r[i] == xs[i + 1])
        && multiset(r) + multiset{xs[k]} == multiset(xs)
      else r == xs
  {
    var k := SpliceStart(|xs|, start);
    if k < |xs| then
      assert xs == xs[..k] + [xs[k]] + xs[k + 1..];
      xs[..k] + xs[k + 1..]
    else xs
  }

  /** The remove button's handler: its `data-index` text is parsed (NaN is
      taken as position 0 by `splice`) and that entry is spliced out of the
      stored list, which is written back. */
  function RemoveClicked(storage: Storage, index: string): (r: Storage)
    ensures r.Some?
    ensures |Stored(r)| == |Stored(storage)| || |Stored(r)| == |Stored(storage)| - 1
  {
    Some(Splice(Stored(storage), ParseInt(index).GetOr(0)))
  }

  /** The `data-index` the list gives the remove button of entry `i`. */
  function RemoveButtonIndex(i: nat): string {
    NatToString(i)
  }

  /** `clearRemotes`: only a confirmed clear removes the storage key. */
  function Clear(storage: Storage, confirmed: bool): (r: Storage)
    ensures confirmed ==> Stored(r) == [] && r.None?
    ensures !confirmed ==> r == storage
  {
    if confirmed then None else storage
  }

  /** The remove button of entry `i` removes exactly that entry and keeps the
      others in order. */
  lemma RemoveButtonRemovesItsEntry(storage: Storage, i: nat)
    requires i < |Stored(storage)|
    ensures Stored(RemoveClicked(storage, RemoveButtonIndex(i)))
         == Stored(storage)[..i] + Stored(storage)[i + 1..]
  {
    NumeralRoundTrip(i);
  }

  /** An index at or past the end removes nothing. */
  lemma RemovePastEndKeepsList(storage: Storage, i: nat)
    requires i >= |Stored(storage)|
    ensures Stored(RemoveClicked(storage, RemoveButtonIndex(i))) == Stored(storage)
  {
    NumeralRoundTrip(i);
  }

  /** A negative index counts from the end, as `splice` does: "-1" removes
      the last entry. */
  lemma RemoveMinusOneRemovesLast(storage: Storage)
    requires |Stored(storage)| > 0
    ensures var xs := Stored(storage);
      Stored(RemoveClicked(storage, "-1")) == xs[..|xs| - 1]
  {
    assert "-1" == [] + (Minus.Text() + ("1" + []));
    ParseIntOfNumeral([], Minus, "1", []);
  }

  /** An index without a number reads as NaN, which `splice` takes as 0: the
      first entry is removed. */
  lemma RemoveNonNumericRemovesFirst(storage: Storage, w: string, sign: Sign, rest: string)
    requires |Stored(storage)| > 0
    requires AllWhitespace(w)
    requires rest == [] || !IsDigit(rest[0])
    requires sign.NoSign? && rest != [] ==> !IsWhitespace(rest[0]) && rest[0] != '+' && rest[0] != '-'
    ensures Stored(RemoveClicked(storage, w + (sign.Text() + rest))) == Stored(storage)[1..]
  {
    ParseIntNoDigits(w, sign, rest);
  }

  /** Removing the first entry undoes an accepted save. */
  lemma RemoveUndoesSave(storage: Storage, form: Form)
    requires !AllWhitespace(form.name) && !AllWhitespace(form.code)
    ensures Stored(RemoveClicked(Save(storage, form).storage, RemoveButtonIndex(0))) == Stored(storage)
  {
    RemoveButtonRemovesItsEntry(Save(storage, form).storage, 0);
  }

  /** Pressing save again right after a save adds nothing: an accepted
      save empties the name and code, so the second one is refused, and a
      refused save leaves the form as it was, so it is refused again. */
  lemma RepeatedSaveAddsOnce(storage: Storage, form: Form)
    ensures var first := Save(storage, form);
      var second := Save(first.storage, first.form);
      second.storage == first.storage && second.form == first.form
      && second.alert == Some(Required)
  {
  }

  /** Saving after a confirmed clear gives a list of the new entry alone. */
  lemma SaveAfterClear(storage: Storage, form: Form)
    requires !AllWhitespace(form.name) && !AllWhitespace(form.code)
    ensures Stored(Save(Clear(storage, true), form).storage) == [Entry(form)]
  {
  }

  /** Clearing twice is clearing once. */
  lemma ClearIdempotent(storage: Storage, c1: bool, c2: bool)
    ensures Clear(Clear(storage, c1), c2) == Clear(storage, c1 || c2)
  {
  }
}
