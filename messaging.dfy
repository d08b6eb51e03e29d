/** The host-side message bookkeeping MeshViewerProvider and
    MeshEditorProvider share (src/MeshViewerProvider.ts and
    src/MeshEditorProvider.ts hold identical copies): request ids with their
    pending callbacks, plain posts, and the `update` fan-out to the panels of
    a document. */
module Messaging {
  import opened Js
  import opened Host
  import opened Util

  /** A promise's `resolve` function, by identity. */
  type Callback = nat

  /** One call `callback(message.body)`. */
  datatype Invocation = Invocation(callback: Callback, body: Body)

  /** The `{ type, body }` message posted to each panel on a change. */
  const UpdateMessage: Outgoing := Typed("update", None, Payload("{}"))

  /** One `update` delivery per panel, in order. */
  function UpdatesTo(panels: seq<Panel>): (r: seq<Delivery>)
    decreases |panels|
  {
    if panels == [] then []
    else UpdatesTo(panels[..|panels| - 1]) + [Delivery(panels[|panels| - 1], UpdateMessage)]
  }

  /** The deliveries go to the given panels, one each, in order. */
  lemma {:induction false} UpdatesToContents(panels: seq<Panel>)
    ensures |UpdatesTo(panels)| == |panels|
    ensures forall i :: 0 <= i < |panels| ==> UpdatesTo(panels)[i] == Delivery(panels[i], UpdateMessage)
    decreases |panels|
  {
    if panels != [] {
      UpdatesToContents(panels[..|panels| - 1]);
    }
  }

  /** The provider fields `_requestId` and `_callbacks`, and the messages
      the provider has posted and the callbacks it has called; `issued`
      records the request ids handed out so far, in order. */
  class Channel {
    var nextRequestId: nat
    var callbacks: map<nat, Callback>
    var outbox: seq<Delivery>
    var invoked: seq<Invocation>
    ghost var issued: seq<nat>

    /** Ids start at 1 and strictly increase, each lies below the next id,
        and every stored callback sits under an issued id. */
    ghost predicate Valid()
      reads this
    {
      nextRequestId >= 1 &&
      (forall i :: 0 <= i < |issued| ==> 1 <= issued[i] < nextRequestId) &&
      (forall i, j :: 0 <= i < j < |issued| ==> issued[i] < issued[j]) &&
      (forall id :: id in callbacks ==> id in issued)
    }

    constructor ()
      ensures Valid()
      ensures nextRequestId == 1 && callbacks == map[] && outbox == [] && invoked == [] && issued == []
    {
      nextRequestId := 1;
      callbacks := map[];
      outbox := [];
      invoked := [];
      issued := [];
    }

    /** postMessageWithResponse: take the next id, store the promise's
        resolve function under it, post `{ type, requestId, body }`. The id
        was never used before. */
    method PostMessageWithResponse(panel: Panel, msgType: string, body: Body, resolve: Callback) returns (requestId: nat)
      requires Valid()
      modifies this
      ensures Valid()
      ensures requestId == old(nextRequestId) && nextRequestId == requestId + 1
      ensures issued == old(issued) + [requestId] && requestId !in old(issued)
      ensures requestId !in old(callbacks)
      ensures callbacks == old(callbacks)[requestId := resolve]
      ensures outbox == old(outbox) + [Delivery(panel, Typed(msgType, Some(requestId), body))]
      ensures invoked == old(invoked)
    {
      requestId := nextRequestId;
      issued := issued + [requestId];
      nextRequestId := nextRequestId + 1;
      callbacks := callbacks[requestId := resolve];
      outbox := outbox + [Delivery(panel, Typed(msgType, Some(requestId), body))];
    }

    /** postMessage: `{ type, body }`, no request id. */
    method PostMessage(panel: Panel, msgType: string, body: Body)
      modifies this
      ensures outbox == old(outbox) + [Delivery(panel, Typed(msgType, None, body))]
      ensures nextRequestId == old(nextRequestId) && callbacks == old(callbacks) && invoked == old(invoked)
      ensures issued == old(issued)
    {
      outbox := outbox + [Delivery(panel, Typed(msgType, None, body))];
    }

    /** Posting a bare string, as the file watcher does. */
    method PostText(panel: Panel, text: string)
      modifies this
      ensures outbox == old(outbox) + [Delivery(panel, Text(text))]
      ensures nextRequestId == old(nextRequestId) && callbacks == old(callbacks) && invoked == old(invoked)
      ensures issued == old(issued)
    {
      outbox := outbox + [Delivery(panel, Text(text))];
    }

    /** onMessage: a `response` calls the callback stored under its
        `requestId` with its body; any other message, or an id with no
        callback, does nothing. Callbacks are kept after use. */
    method OnMessage(message: Incoming)
      modifies this
      ensures callbacks == old(callbacks) && nextRequestId == old(nextRequestId) && outbox == old(outbox)
      ensures issued == old(issued)
      ensures message.msgType == "response" && message.requestId.Some? && message.requestId.value in callbacks ==>
        invoked == old(invoked) + [Invocation(callbacks[message.requestId.value], message.body)]
      ensures !(message.msgType == "response" && message.requestId.Some? && message.requestId.value in callbacks) ==>
        invoked == old(invoked)
    {
      if message.msgType == "response" {
        if message.requestId.Some? && message.requestId.value in callbacks {
          invoked := invoked + [Invocation(callbacks[message.requestId.value], message.body)];
        }
      }
    }
  }

  lemma UpdatesToAppend(ps: seq<Panel>, p: Panel)
    ensures UpdatesTo(ps + [p]) == UpdatesTo(ps) + [Delivery(p, UpdateMessage)]
  {
    assert (ps + [p])[..|ps|] == ps;
  }

  /** The `onDidChangeContent` listener of openCustomDocument: one `update`
      to each panel registered for the document's URI, in registration
      order, and to no other panel. */
  method NotifyUpdate(webviews: WebviewCollection, channel: Channel, uri: Uri)
    modifies channel
    ensures channel.outbox == old(channel.outbox) + UpdatesTo(PanelsFor(webviews.entries, UriString(uri)))
    ensures channel.nextRequestId == old(channel.nextRequestId) && channel.callbacks == old(channel.callbacks)
    ensures channel.invoked == old(channel.invoked) && channel.issued == old(channel.issued)
  {
    var panels := webviews.Get(uri);
    for i := 0 to |panels|
      invariant channel.outbox == old(channel.outbox) + UpdatesTo(panels[..i])
      invariant channel.nextRequestId == old(channel.nextRequestId) && channel.callbacks == old(channel.callbacks)
      invariant channel.invoked == old(channel.invoked) && channel.issued == old(channel.issued)
    {
      channel.PostMessage(panels[i], "update", Payload("{}"));
      assert panels[..i + 1] == panels[..i] + [panels[i]];
      UpdatesToAppend(panels[..i], panels[i]);
    }
    assert panels[..|panels|] == panels;
  }

  /** The panels an update reaches are exactly those registered for the
      URI: a panel added for another resource gets nothing. */
  lemma UpdateReachesOnlyKey(entries: seq<Entry>, key: string, p: Panel, id: nat, other: string)
    requires other != key
    ensures UpdatesTo(PanelsFor(entries + [Entry(other, p, id)], key)) == UpdatesTo(PanelsFor(entries, key))
  {
    PanelsForAppend(entries, Entry(other, p, id), key);
    assert PanelsFor(entries, key) + [] == PanelsFor(entries, key);
  }

  /** No id is issued twice, and the next one has not been issued yet. */
  lemma IssuedIdsDistinct(c: Channel)
    requires c.Valid()
    ensures forall i, j :: 0 <= i < |c.issued| && 0 <= j < |c.issued| && i != j ==> c.issued[i] != c.issued[j]
    ensures c.nextRequestId !in c.issued
  {
  }
}
