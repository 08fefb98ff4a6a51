/** The handler that logs a customer's address change. Its `handle`
    destructures the event payload, formats the address with one template
    literal and logs a message built with a second one; the log call itself
    is not modelled, `Handle` is the line it would print. */
module EnviaConsoleLog {
  import opened Events

  // ---------------------------------------------------------------------
  // Rendering a number in a template literal

  predicate IsDigit(c: char)
  {
    '0' <= c <= '9'
  }

  /** The character of the decimal digit `d`. */
  function DigitChar(d: nat): (c: char)
    requires d < 10
    ensures IsDigit(c)
  {
    ('0' as int + d) as char
  }

  /** The value of the decimal digit character `c`. */
  function DigitValue(c: char): (d: nat)
    requires IsDigit(c)
    ensures d < 10
  {
    c as int - '0' as int
  }

  /** How `${n}` renders a non-negative integer: its decimal digits, most
      significant first, with no leading zero. */
  function Decimal(n: nat): (s: string)
    ensures |s| >= 1
    ensures forall i :: 0 <= i < |s| ==> IsDigit(s[i])
    ensures s[0] == '0' ==> n == 0
    ensures s[0] == '0' ==> s == "0"
    decreases n
  {
    if n < 10 then [DigitChar(n)] else Decimal(n / 10) + [DigitChar(n % 10)]
  }

  /** The number a string of decimal digits denotes. */
  function DecimalValue(s: string): nat
    requires forall i :: 0 <= i < |s| ==> IsDigit(s[i])
    decreases |s|
  {
    if s == [] then 0 else DecimalValue(s[..|s| - 1]) * 10 + DigitValue(s[|s| - 1])
  }

  /** Reading the rendered digits back gives the number: the rendering
      loses nothing. */
  lemma {:induction false} DecimalRoundTrip(n: nat)
    ensures DecimalValue(Decimal(n)) == n
    decreases n
  {
    var s := Decimal(n);
    if n < 10 {
      assert s[..|s| - 1] == [];
    } else {
      DecimalRoundTrip(n / 10);
      assert s[..|s| - 1] == Decimal(n / 10);
    }
  }

  /** Different numbers render differently. */
  lemma DecimalInjective(m: nat, n: nat)
    requires Decimal(m) == Decimal(n)
    ensures m == n
  {
    DecimalRoundTrip(m);
    DecimalRoundTrip(n);
  }

  // ---------------------------------------------------------------------
  // Template literals

  /** A template literal: the literal pieces `strings` with the rendered
      substitutions `values` between them, `strings[0] + values[0] +
      strings[1] + ... + strings[|values|]`. */
  function Interpolate(strings: seq<string>, values: seq<string>): string
    requires |strings| == |values| + 1
    decreases |values|
  {
    if values == [] then strings[0]
    else strings[0] + values[0] + Interpolate(strings[1..], values[1..])
  }

  const Greeting := "Endereço do client: "
  const ChangedTo := " alterado para: "

  /** `${street}, ${number} - ${city}, ${zip}` */
  function FormattedAddress(a: Address): string
  {
    Interpolate(["", ", ", " - ", ", ", ""], [a.street, Decimal(a.number), a.city, a.zip])
  }

  /** `Endereço do client: ${id}, ${name} alterado para: ${formattedAddress}` */
  function Message(id: string, name: string, formattedAddress: string): string
  {
    Interpolate([Greeting, ", ", ChangedTo, ""], [id, name, formattedAddress])
  }

  /** The line `handle` logs for an address-changed event. */
  function Handle(e: Event): string
    requires e.AddressChangedEvent?
  {
    var AddressChangedData(id, name, address) := e.change;
    Message(id, name, FormattedAddress(address))
  }

  // ---------------------------------------------------------------------
  // Properties

  /** One step of a template literal. */
  lemma InterpolateStep(strings: seq<string>, values: seq<string>)
    requires |strings| == |values| + 1 && values != []
    ensures Interpolate(strings, values) == strings[0] + values[0] + Interpolate(strings[1..], values[1..])
  {
  }

  /** The total length of a sequence of strings. */
  function TotalLength(ss: seq<string>): nat
  {
    if ss == [] then 0 else |ss[0]| + TotalLength(ss[1..])
  }

  /** A template literal is as long as its literal pieces and its
      substitutions together: it drops and adds no character. */
  lemma {:induction false} InterpolateLength(strings: seq<string>, values: seq<string>)
    requires |strings| == |values| + 1
    ensures |Interpolate(strings, values)| == TotalLength(strings) + TotalLength(values)
    decreases |values|
  {
    if values == [] {
      assert strings[1..] == [];
    } else {
      InterpolateLength(strings[1..], values[1..]);
    }
  }

  /** The formatted address is the street, the number, the city and the
      zip with ", ", " - " and ", " between them. */
  lemma FormattedAddressIsExact(a: Address)
    ensures FormattedAddress(a) == a.street + ", " + Decimal(a.number) + " - " + a.city + ", " + a.zip
  {
    var strings, values := ["", ", ", " - ", ", ", ""], [a.street, Decimal(a.number), a.city, a.zip];
    InterpolateStep(strings, values);
    InterpolateStep(strings[1..], values[1..]);
    InterpolateStep(strings[2..], values[2..]);
    InterpolateStep(strings[3..], values[3..]);
    assert Interpolate(strings[4..], values[4..]) == "";
  }

  /** The message is the greeting, the id, ", ", the name, " alterado
      para: " and the formatted address, exactly. */
  lemma MessageIsExact(id: string, name: string, formattedAddress: string)
    ensures Message(id, name, formattedAddress)
         == "Endereço do client: " + id + ", " + name + " alterado para: " + formattedAddress
  {
    var strings, values := [Greeting, ", ", ChangedTo, ""], [id, name, formattedAddress];
    InterpolateStep(strings, values);
    InterpolateStep(strings[1..], values[1..]);
    InterpolateStep(strings[2..], values[2..]);
    assert Interpolate(strings[3..], values[3..]) == "";
  }

  /** The logged line, written out field by field. */
  lemma HandleIsExact(e: Event)
    requires e.AddressChangedEvent?
    ensures var d := e.change; var a := d.address;
      Handle(e) == "Endereço do client: " + d.id + ", " + d.name + " alterado para: "
                   + a.street + ", " + Decimal(a.number) + " - " + a.city + ", " + a.zip
  {
    var d := e.change;
    MessageIsExact(d.id, d.name, FormattedAddress(d.address));
    FormattedAddressIsExact(d.address);
  }

  /** Where each payload field stands in the logged line: the id right
      after the 20-character greeting, the name after the id and ", ",
      and the zip, verbatim, at the very end. */
  lemma HandleLayout(e: Event)
    requires e.AddressChangedEvent?
    ensures var m, d := Handle(e), e.change; var k := |Greeting| + |d.id| + 2;
      && |Greeting| == 20
      && |m| == k + |d.name| + |ChangedTo| + |FormattedAddress(d.address)|
      && m[..|Greeting|] == Greeting
      && m[|Greeting|..|Greeting| + |d.id|] == d.id
      && m[k..k + |d.name|] == d.name
      && m[|m| - |FormattedAddress(d.address)|..] == FormattedAddress(d.address)
      && |d.address.zip| <= |FormattedAddress(d.address)|
      && m[|m| - |d.address.zip|..] == d.address.zip
  {
    var d := e.change;
    var fa := FormattedAddress(d.address);
    var m := Handle(e);
    MessageIsExact(d.id, d.name, fa);
    FormattedAddressIsExact(d.address);
    var k := |Greeting| + |d.id| + 2;
    assert m == Greeting + d.id + ", " + d.name + ChangedTo + fa;
    assert m[|m| - |fa|..] == fa;
    assert fa[|fa| - |d.address.zip|..] == d.address.zip;
    assert m[|m| - |d.address.zip|..] == fa[|fa| - |d.address.zip|..];
  }

  /** The number stands after the street and ", " in the formatted
      address, and reading those digits back gives the number. */
  lemma FormattedAddressNumber(a: Address)
    ensures var f, k, s := FormattedAddress(a), |a.street| + 2, Decimal(a.number);
      k + |s| <= |f| && f[k..k + |s|] == s && DecimalValue(f[k..k + |s|]) == a.number
  {
    FormattedAddressIsExact(a);
    var f, k, s := FormattedAddress(a), |a.street| + 2, Decimal(a.number);
    assert f == a.street + ", " + s + (" - " + a.city + ", " + a.zip);
    assert f[k..k + |s|] == s;
    DecimalRoundTrip(a.number);
  }

  /** The house number of the dispatcher test renders as "500". */
  lemma DecimalFiveHundred()
    ensures Decimal(500) == "500"
  {
  }

  /** The line logged for the address change dispatched by the
      dispatcher test: the number 500 renders as "500". */
  lemma AddressChangedTestMessage(e: Event)
    requires e == AddressChangedEvent(AddressChangedData("1", "Epaminondas da Silva",
                    Address("Rua XV de Novembro", 500, "Blumenau", "89023-000")))
    ensures FormattedAddress(e.change.address) == "Rua XV de Novembro, 500 - Blumenau, 89023-000"
    ensures Handle(e) == Message("1", "Epaminondas da Silva", "Rua XV de Novembro, 500 - Blumenau, 89023-000")
  {
    TestAddressFormatted(e.change.address);
  }

  /** The address of the dispatcher test, formatted. */
  lemma TestAddressFormatted(a: Address)
    requires a == Address("Rua XV de Novembro", 500, "Blumenau", "89023-000")
    ensures FormattedAddress(a) == "Rua XV de Novembro, 500 - Blumenau, 89023-000"
  {
    DecimalFiveHundred();
    FormattedAddressIsExact(a);
    TestAddressPieces();
  }

  /** The pieces of the test's formatted address, joined. */
  lemma TestAddressPieces()
    ensures "Rua XV de Novembro" + ", " + "500" + " - " + "Blumenau" + ", " + "89023-000"
         == "Rua XV de Novembro, 500 - Blumenau, 89023-000"
  {
  }
}
