/**
 * The fixed city registry of src/controllers/ForecastController.ts and the
 * wrong-city error whose message lists its keys. The registry is an ordered
 * sequence because `Object.keys` and `for...in` visit string keys in
 * insertion order.
 */
module Registry {
  import opened Wrappers
  import opened Models

  const Cities: seq<Entry> := [
    Entry("Bologna", City(44.467, 11.433)),
    Entry("Seattle", City(47.606, -122.332)),
    Entry("Canberra", City(-35.283, 149.128))
  ]

  const WrongCityPrefix := "User has not entered one of the available cities: "

  /** `ERROR_WRONG_CITY`: a 400 record whose message lists the keys joined by ",". */
  const WrongCity := ErrorRecord("Wrong city input", WrongCityPrefix + Join(Keys(Cities), ","), Code(400), None)

  /** `Object.keys(registry)`: the keys in registry order. */
  function Keys(reg: seq<Entry>): (ks: seq<string>)
    ensures |ks| == |reg|
    ensures forall i :: 0 <= i < |reg| ==> ks[i] == reg[i].key
  {
    seq(|reg|, i requires 0 <= i < |reg| => reg[i].key)
  }

  /** `Object.keys(cities).includes(name)`: exact, case-sensitive membership. */
  predicate IsAvailable(name: string)
    ensures IsAvailable(name) <==> exists i :: 0 <= i < |Cities| && Cities[i].key == name
  {
    name in Keys(Cities)
  }

  /** `registry[name]` for a key that is present: the coordinates stored under it. */
  function Lookup(reg: seq<Entry>, name: string): (c: City)
    requires name in Keys(reg)
    ensures exists i :: 0 <= i < |reg| && reg[i].key == name && reg[i].city == c
                        && forall j :: 0 <= j < i ==> reg[j].key != name
  {
    if reg[0].key == name then reg[0].city
    else
      assert name in Keys(reg[1..]) by {
        var i :| 0 <= i < |reg| && Keys(reg)[i] == name;
        assert Keys(reg[1..])[i - 1] == name;
      }
      Lookup(reg[1..], name)
  }

  /** `Array.prototype.join(sep)` on strings. */
  function Join(ks: seq<string>, sep: string): (s: string)
    ensures |ks| == 0 ==> s == ""
    ensures |ks| > 0 ==> ks[0] <= s
    ensures |ks| > 1 ==> ks[0] + sep <= s
  {
    if |ks| == 0 then ""
    else if |ks| == 1 then ks[0]
    else ks[0] + sep + Join(ks[1..], sep)
  }

  /** `String.prototype.split(",")`: the pieces between commas (one piece when there is none). */
  function Split(s: string): (parts: seq<string>)
    ensures |parts| >= 1
    decreases |s|
  {
    if |s| == 0 then [""]
    else
      var rest := Split(s[1..]);
      if s[0] == ',' then [""] + rest
      else [[s[0]] + rest[0]] + rest[1..]
  }

  lemma {:induction false} SplitNoComma(a: string)
    requires ',' !in a
    ensures Split(a) == [a]
    decreases |a|
  {
    if |a| > 0 {
      SplitNoComma(a[1..]);
      assert [a[0]] + a[1..] == a;
    }
  }

  lemma {:induction false} SplitAfterComma(a: string, b: string)
    requires ',' !in a
    ensures Split(a + "," + b) == [a] + Split(b)
    decreases |a|
  {
    var s := a + "," + b;
    if |a| == 0 {
      assert s[1..] == b;
    } else {
      assert s[1..] == a[1..] + "," + b;
      SplitAfterComma(a[1..], b);
      assert [a[0]] + a[1..] == a;
    }
  }

  /** Splitting a comma-joined list of comma-free names gives the names back. */
  lemma {:induction false} JoinSplit(ks: seq<string>)
    requires |ks| > 0
    requires forall i :: 0 <= i < |ks| ==> ',' !in ks[i]
    ensures Split(Join(ks, ",")) == ks
  {
    if |ks| == 1 {
      SplitNoComma(ks[0]);
    } else {
      JoinSplit(ks[1..]);
      SplitAfterComma(ks[0], Join(ks[1..], ","));
      assert [ks[0]] + ks[1..] == ks;
    }
  }

  /** The registry's keys are distinct, as the keys of an object literal are. */
  lemma KeysDistinct()
    ensures forall i, j :: 0 <= i < j < |Cities| ==> Cities[i].key != Cities[j].key
  {
  }

  /** Since the keys are distinct, the looked-up coordinates are the ones stored under the key. */
  lemma LookupStoredValue(name: string, i: nat)
    requires i < |Cities| && Cities[i].key == name
    ensures IsAvailable(name)
    ensures Lookup(Cities, name) == Cities[i].city
  {
    assert Keys(Cities)[i] == name;
    KeysDistinct();
  }

  /** Acceptance is exact string equality with one of the three keys. */
  lemma AvailableIffRegistered(name: string)
    ensures IsAvailable(name) <==> name == "Bologna" || name == "Seattle" || name == "Canberra"
  {
    assert Keys(Cities) == ["Bologna", "Seattle", "Canberra"];
  }

  /** No case folding: "bologna" is rejected although "Bologna" is accepted. */
  lemma NoNormalisation()
    ensures IsAvailable("Bologna") && !IsAvailable("bologna")
  {
    AvailableIffRegistered("Bologna");
    AvailableIffRegistered("bologna");
  }

  /** The message is the prefix followed by the keys in registry order, no spaces. */
  lemma WrongCityMessageText()
    ensures WrongCity.message == WrongCityPrefix + "Bologna" + "," + "Seattle" + "," + "Canberra"
    ensures WrongCity.status == Code(400)
  {
    var ks := Keys(Cities);
    assert ks == ["Bologna", "Seattle", "Canberra"];
    assert ks[1..][1..] == ["Canberra"];
    assert Join(ks, ",") == "Bologna" + "," + Join(ks[1..], ",");
    assert Join(ks[1..], ",") == "Seattle" + "," + Join(ks[1..][1..], ",");
  }

  /** The list after the prefix names exactly the registry keys, in order. */
  lemma WrongCityListsKeys()
    ensures |WrongCityPrefix| <= |WrongCity.message|
    ensures Split(WrongCity.message[|WrongCityPrefix|..]) == Keys(Cities)
  {
    var ks := Keys(Cities);
    assert ks == ["Bologna", "Seattle", "Canberra"];
    assert WrongCity.message[|WrongCityPrefix|..] == Join(ks, ",");
    JoinSplit(ks);
  }
}
