/**
 * What the "Events" and "States" data sources share: one fixed top-N request,
 * the filter that keeps the responses of the expected type, the choice of the
 * name lookup, and the shape of a row. The two sources differ only in the
 * message family they ask for and in the metric fields they copy.
 */
module TopN {

  import opened Wrappers
  import opened Dms

  /** The number of objects a top-N request asks for. */
  const MAX_AMOUNT: int := 5

  /** A row: the object's name followed by the Timeout, Warning, Minor, Major and Critical cells. */
  datatype TopRow<V> = TopRow(name: string, cells: seq<V>)

  /** The request GetAlarmCounts sends: the time-span string is passed on as it is. */
  function TopRequestFor(query: TopQuery, viewFilter: int, timeSpan: string): TopRequest {
    TopRequest(query, timeSpan, Total, MAX_AMOUNT, DERIVED_AND_SERVICES, ReportFilterInfo(View, viewFilter))
  }

  /** The name lookup GetName sends: by service id for a service, by element id otherwise. */
  function NameRequestFor(obj: ObjectRef): NameRequest {
    if obj.isService then ServiceInfoById(obj.dataMinerId, obj.serviceId)
    else ElementInfoById(obj.dataMinerId, obj.elementId)
  }

  /** GetName: the name the lookup returns. */
  function GetName(obj: ObjectRef, names: NameRequest -> string): string {
    names(NameRequestFor(obj))
  }

  /** The lookup never reads the identifier that does not apply to the object's kind. */
  lemma NameRequestIgnoresOtherId(a: ObjectRef, b: ObjectRef)
    requires a.dataMinerId == b.dataMinerId && a.isService == b.isService
    requires a.isService ==> a.serviceId == b.serviceId
    requires !a.isService ==> a.elementId == b.elementId
    ensures NameRequestFor(a) == NameRequestFor(b)
    ensures NameRequestFor(a).ServiceInfoById? <==> a.isService
  {
  }

  /**
   * OfType: the messages that `cast` accepts, converted, in their original
   * order; every other message is dropped.
   */
  function OfType<M>(messages: seq<Message>, cast: Message -> Option<M>): (kept: seq<M>)
    ensures |kept| <= |messages|
    ensures forall k :: 0 <= k < |kept| ==> exists m :: m in messages && cast(m) == Some(kept[k])
  {
    if messages == [] then []
    else
      var rest := OfType(messages[1..], cast);
      assert forall k :: 0 <= k < |rest| ==> exists m :: m in messages && cast(m) == Some(rest[k]) by {
        forall k | 0 <= k < |rest| ensures exists m :: m in messages && cast(m) == Some(rest[k]) {
          var m :| m in messages[1..] && cast(m) == Some(rest[k]);
          assert m in messages;
        }
      }
      match cast(messages[0])
      case Some(x) => [x] + rest
      case None => rest
  }

  /** The filter distributes over concatenation: order is preserved. */
  lemma {:induction false} OfTypeAppend<M>(a: seq<Message>, b: seq<Message>, cast: Message -> Option<M>)
    ensures OfType(a + b, cast) == OfType(a, cast) + OfType(b, cast)
  {
    if a == [] {
      assert a + b == b;
    } else {
      assert (a + b)[1..] == a[1..] + b;
      OfTypeAppend(a[1..], b, cast);
    }
  }

  /** A message of another type leaves no trace in the result. */
  lemma OfTypeDrops<M>(a: seq<Message>, m: Message, b: seq<Message>, cast: Message -> Option<M>)
    requires cast(m).None?
    ensures OfType(a + [m] + b, cast) == OfType(a + b, cast)
  {
    OfTypeAppend(a + [m], b, cast);
    OfTypeAppend(a, [m], cast);
    OfTypeAppend(a, b, cast);
    assert OfType([m], cast) == [] by {
      assert [m][1..] == [];
    }
  }

  /** Every accepted message reaches the result, and nothing else does. */
  lemma {:induction false} OfTypeMembership<M>(messages: seq<Message>, cast: Message -> Option<M>, x: M)
    ensures x in OfType(messages, cast) <==> exists m :: m in messages && cast(m) == Some(x)
  {
    if messages != [] {
      OfTypeMembership(messages[1..], cast, x);
      if cast(messages[0]) == Some(x) {
        assert x == OfType(messages, cast)[0];
      } else {
        assert forall m :: m in messages && m != messages[0] ==> m in messages[1..];
      }
    }
  }

  /** When every message has the expected type, the result matches them one-to-one. */
  lemma {:induction false} OfTypeAll<M>(messages: seq<Message>, cast: Message -> Option<M>)
    requires forall i :: 0 <= i < |messages| ==> cast(messages[i]).Some?
    ensures |OfType(messages, cast)| == |messages|
    ensures forall i :: 0 <= i < |messages| ==> OfType(messages, cast)[i] == cast(messages[i]).value
  {
    if messages != [] {
      OfTypeAll(messages[1..], cast);
    }
  }
}
