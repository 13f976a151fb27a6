/**
 The port-choosing part of the `MidiSender` constructor: given the names of the
 available output ports, resolve an explicit index, a name fragment, or (when
 neither is given) the index the user typed at the prompt, to the index of the
 port to open. `None` is every path on which the constructor gives up and leaves
 the sender not ready.
 */
module PortSelection {
  import opened Wrappers

  /** `str.lower()` on one character; only ASCII letters are folded. */
  function LowerChar(c: char): char {
    if 'A' <= c <= 'Z' then (c as int - 'A' as int + 'a' as int) as char else c
  }

  function Lower(s: string): (r: string)
    ensures |r| == |s|
    ensures forall i :: 0 <= i < |s| ==> r[i] == LowerChar(s[i])
  {
    if s == [] then [] else [LowerChar(s[0])] + Lower(s[1..])
  }

  /** `needle` occurs in `hay` starting at position `k`. */
  predicate OccursAt(needle: string, hay: string, k: nat) {
    k + |needle| <= |hay| && hay[k..k + |needle|] == needle
  }

  /** Python's `needle in hay` for strings. */
  predicate IsSubstring(needle: string, hay: string) {
    exists k: nat :: k <= |hay| && OccursAt(needle, hay, k)
  }

  /** Whether port name `port` is picked by the name fragment `name`: a case-insensitive substring test. */
  predicate NameMatches(name: string, port: string) {
    IsSubstring(Lower(name), Lower(port))
  }

  /** Searches for `needle` in `hay` at positions `from` onwards. */
  function ContainsFrom(hay: string, needle: string, from: nat): (r: bool)
    ensures r <==> exists k: nat :: from <= k <= |hay| && OccursAt(needle, hay, k)
    decreases |hay| - from
  {
    if from + |needle| > |hay| then false
    else if hay[from..from + |needle|] == needle then assert OccursAt(needle, hay, from); true
    else ContainsFrom(hay, needle, from + 1)
  }

  function Contains(hay: string, needle: string): (r: bool)
    ensures r <==> IsSubstring(needle, hay)
  {
    ContainsFrom(hay, needle, 0)
  }

  /** The first port at index `from` or later whose name matches, as the `for ... break` loop finds it. */
  function FirstMatchFrom(ports: seq<string>, name: string, from: nat): (r: Option<nat>)
    requires from <= |ports|
    ensures r.Some? ==> from <= r.value < |ports| && NameMatches(name, ports[r.value])
    ensures r.Some? ==> forall j :: from <= j < r.value ==> !NameMatches(name, ports[j])
    ensures r.None? ==> forall j :: from <= j < |ports| ==> !NameMatches(name, ports[j])
    decreases |ports| - from
  {
    if from == |ports| then None
    else if Contains(Lower(ports[from]), Lower(name)) then Some(from)
    else FirstMatchFrom(ports, name, from + 1)
  }

  /**
   The constructor's choice of port. `portIndex` wins over `portName`; with neither,
   `prompted` is the integer the user entered (`None` when the input was not a number).
   */
  function SelectPort(ports: seq<string>, portName: Option<string>, portIndex: Option<int>,
                      prompted: Option<int>): (r: Option<nat>)
    ensures r.Some? ==> r.value < |ports|
    ensures |ports| == 0 ==> r.None?
    ensures |ports| > 0 && portIndex.Some? ==>
      (r.Some? <==> 0 <= portIndex.value < |ports|) && (r.Some? ==> r.value == portIndex.value)
    ensures |ports| > 0 && portIndex.None? && portName.Some? ==>
      && (r.Some? <==> exists i :: 0 <= i < |ports| && NameMatches(portName.value, ports[i]))
      && (r.Some? ==> NameMatches(portName.value, ports[r.value]))
      && (r.Some? ==> forall j :: 0 <= j < r.value ==> !NameMatches(portName.value, ports[j]))
    ensures |ports| > 0 && portIndex.None? && portName.None? ==>
      (r.Some? <==> prompted.Some? && 0 <= prompted.value < |ports|)
      && (r.Some? ==> r.value == prompted.value)
  {
    if |ports| == 0 then None
    else if portIndex.Some? then
      if 0 <= portIndex.value < |ports| then Some(portIndex.value) else None
    else if portName.Some? then
      FirstMatchFrom(ports, portName.value, 0)
    else if prompted.Some? && 0 <= prompted.value < |ports| then Some(prompted.value)
    else None
  }

  /** An explicit index makes the name and the prompt irrelevant. */
  lemma IndexTakesPrecedence(ports: seq<string>, name1: Option<string>, name2: Option<string>,
                             index: int, prompted1: Option<int>, prompted2: Option<int>)
    ensures SelectPort(ports, name1, Some(index), prompted1) == SelectPort(ports, name2, Some(index), prompted2)
  {
  }

  /** Lower-casing an already lower-cased string changes nothing. */
  lemma LowerIdempotent(s: string)
    ensures Lower(Lower(s)) == Lower(s)
  {
  }

  /** Name matching ignores the case of ASCII letters on both sides. */
  lemma NameMatchIgnoresCase(name: string, port: string)
    ensures NameMatches(name, port) <==> NameMatches(Lower(name), port)
    ensures NameMatches(name, port) <==> NameMatches(name, Lower(port))
  {
    LowerIdempotent(name);
    LowerIdempotent(port);
  }
}
