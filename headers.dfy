/**
 * Response headers contributed by authentication, and the two ways the
 * `onPreResponse` hook merges them into an outgoing response: spreading them
 * over a Boom error's `output.headers`, or setting them one by one on a
 * normal response.
 */
module Headers {

  /** One `[name, value]` pair of a header object, in `Object.entries` order. */
  datatype Header = Header(name: string, value: string)

  /** A response's header collection; setting a name overwrites its value. */
  type HeaderMap = map<string, string>

  /** The header names that occur in `entries`. */
  function Names(entries: seq<Header>): set<string>
  {
    set i | 0 <= i < |entries| :: entries[i].name
  }

  /** A JavaScript object has each property once: its entries have distinct names. */
  predicate DistinctNames(entries: seq<Header>)
  {
    forall i, j :: 0 <= i < j < |entries| ==> entries[i].name != entries[j].name
  }

  lemma NamesOfPrefix(entries: seq<Header>)
    requires entries != []
    ensures Names(entries) == Names(entries[..|entries| - 1]) + {entries[|entries| - 1].name}
  {
  }

  /**
   * The headers after setting each entry in turn, first to last, as
   * successive `response.header(name, value)` calls leave them.
   */
  function Overlay(base: HeaderMap, entries: seq<Header>): (r: HeaderMap)
    ensures r.Keys == base.Keys + Names(entries)
    ensures forall n :: n in base && n !in Names(entries) ==> r[n] == base[n]
    ensures entries != [] ==> r[entries[|entries| - 1].name] == entries[|entries| - 1].value
  {
    if entries == [] then base
    else
      var last := entries[|entries| - 1];
      NamesOfPrefix(entries);
      Overlay(base, entries[..|entries| - 1])[last.name := last.value]
  }

  /** The header object itself, as a map: what `...authResponseHeaders` spreads. */
  function EntriesMap(entries: seq<Header>): (m: HeaderMap)
    ensures m.Keys == Names(entries)
  {
    Overlay(map[], entries)
  }

  /**
   * Setting the entries one by one gives the same headers as spreading the
   * header object over the old ones: every entry's name takes the object's
   * value, and every other header keeps its old value.
   */
  lemma {:induction false} OverlayIsSpread(base: HeaderMap, entries: seq<Header>)
    ensures Overlay(base, entries) == base + EntriesMap(entries)
  {
    if entries != [] {
      var front, last := entries[..|entries| - 1], entries[|entries| - 1];
      OverlayIsSpread(base, front);
      calc {
        Overlay(base, entries);
        Overlay(base, front)[last.name := last.value];
        (base + EntriesMap(front))[last.name := last.value];
        base + EntriesMap(front)[last.name := last.value];
        base + EntriesMap(entries);
      }
    }
  }

  /**
   * With distinct names (a header object), each entry is set to its own
   * value, whatever its position.
   */
  lemma {:induction false} OverlaySetsEveryEntry(base: HeaderMap, entries: seq<Header>, i: nat)
    requires DistinctNames(entries)
    requires i < |entries|
    ensures Overlay(base, entries)[entries[i].name] == entries[i].value
  {
    var k := |entries| - 1;
    if i < k {
      var front := entries[..k];
      assert front[i] == entries[i];
      assert DistinctNames(front) by {
        forall p, q | 0 <= p < q < |front|
          ensures front[p].name != front[q].name
        {
          assert front[p] == entries[p] && front[q] == entries[q];
        }
      }
      OverlaySetsEveryEntry(base, front, i);
      assert entries[i].name != entries[k].name;
    }
  }

  /** A response about to be sent, whose header collection the hook may change in place. */
  class Response {
    /** `Boom.isBoom(response)`: the response is a Boom error. */
    const isBoom: bool
    /** For a Boom error its `output.headers`, otherwise the response's own headers. */
    var headers: HeaderMap

    constructor (isBoom: bool, headers: HeaderMap)
      ensures this.isBoom == isBoom && this.headers == headers
    {
      this.isBoom := isBoom;
      this.headers := headers;
    }

    /** `response.header(name, value)` on a normal response, as a plain overwrite by name. */
    method SetHeader(name: string, value: string)
      requires !isBoom
      modifies this
      ensures headers == old(headers)[name := value]
    {
      headers := headers[name := value];
    }
  }
}
