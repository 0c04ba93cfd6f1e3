/**
 * The chat client's WebSocket wrapper: it builds the socket URL, keeps two
 * connection flags up to date from the socket's events, and only hands a
 * message to the socket while the socket is open.
 *
 * The reconnecting socket itself is outside the model; its ready state is a
 * field that the event handlers and `Close` move.
 */
module TioWs {
  import opened Common
  import opened Text

  /** WebSocket.readyState. */
  datatype ReadyState = CONNECTING | OPEN | CLOSING | CLOSED

  /** JavaScript truthiness of the optional query string. */
  predicate Truthy(paramStr: Option<string>)
  {
    paramStr.Some? && paramStr.value != ""
  }

  /** `protocol://ip[:port]/socket[?paramStr]`; the port is left out when it is the empty string. */
  function BuildUrl(protocol: string, ip: string, port: string, paramStr: Option<string>): string
  {
    var authority := if port == "" then ip else ip + ":" + port;
    var base := protocol + "://" + authority + "/socket";
    if Truthy(paramStr) then base + "?" + paramStr.value else base
  }

  lemma {:induction false} NoOccurrenceInPrefix(a: string, b: string, k: int)
    requires '?' !in a && 0 <= k < |a|
    ensures !OccursAt(a + b, "?", k)
  {
    assert (a + b)[k..k + 1] == [a[k]];
  }

  /**
   * When none of the parts holds a '?', the first '?' of the URL separates
   * the socket path from the query, and what follows it is exactly the query
   * string; without a query string the URL has no '?'.
   */
  lemma UrlQueryRoundTrip(protocol: string, ip: string, port: string, paramStr: Option<string>)
    requires '?' !in protocol && '?' !in ip && '?' !in port
    ensures var url := BuildUrl(protocol, ip, port, paramStr);
      var q := IndexOf(url, "?");
      (Truthy(paramStr) <==> q >= 0)
      && (q >= 0 ==> url[q + 1..] == paramStr.value && EndsWith(url[..q], "/socket"))
  {
    var authority := if port == "" then ip else ip + ":" + port;
    var base := protocol + "://" + authority + "/socket";
    assert '?' !in authority;
    assert '?' !in base by {
      assert base == protocol + ("://" + authority + "/socket");
    }
    var url := BuildUrl(protocol, ip, port, paramStr);
    var tail := if Truthy(paramStr) then "?" + paramStr.value else "";
    assert url == base + tail;
    forall k | 0 <= k < |base| ensures !OccursAt(url, "?", k) {
      NoOccurrenceInPrefix(base, tail, k);
    }
    var q := IndexOf(url, "?");
    if Truthy(paramStr) {
      assert OccursAt(url, "?", |base|);
      assert q == |base|;
      assert url[..q] == base;
      assert url[q + 1..] == paramStr.value;
    } else {
      assert url == base;
    }
  }

  class TioWebSocket {
    const url: string
    const binaryType: string
    /** The socket once connect() has created it, by its ready state. */
    var ws: Option<ReadyState>
    var isConnected: bool
    var isConnecting: bool

    constructor (protocol: string, ip: string, port: string, paramStr: Option<string>, binaryType: string)
      ensures url == BuildUrl(protocol, ip, port, paramStr) && this.binaryType == binaryType
      ensures ws == None && !isConnected && !isConnecting
    {
      url := BuildUrl(protocol, ip, port, paramStr);
      this.binaryType := binaryType;
      ws := None;
      isConnected := false;
      isConnecting := false;
    }

    /** connect(): a new socket, connecting, with both flags cleared. */
    method Connect()
      modifies this
      ensures ws == Some(CONNECTING) && !isConnected && !isConnecting
    {
      ws := Some(CONNECTING);
      isConnected := false;
      isConnecting := false;
    }

    /** The socket's open event. */
    method HandleOpen()
      requires ws.Some?
      modifies this
      ensures ws == Some(OPEN) && isConnected && !isConnecting
    {
      ws := Some(OPEN);
      isConnected := true;
      isConnecting := false;
    }

    /** The socket's close event. */
    method HandleClose()
      requires ws.Some?
      modifies this
      ensures ws == Some(CLOSED) && !isConnected && !isConnecting
    {
      ws := Some(CLOSED);
      isConnected := false;
      isConnecting := false;
    }

    /** The socket's error event clears only the connected flag. */
    method HandleError()
      requires ws.Some?
      modifies this
      ensures ws == old(ws) && !isConnected && isConnecting == old(isConnecting)
    {
      isConnected := false;
    }

    /**
     * send(data): true exactly when the socket exists, is open and accepts
     * the data; `sendThrows` says whether the socket's own send throws.
     */
    method Send(data: string, sendThrows: bool) returns (ok: bool)
      ensures ok <==> ws == Some(OPEN) && !sendThrows
      ensures ok ==> IsReady()
    {
      if ws.None? {
        return false;
      }
      if ws.value == CONNECTING {
        return false;
      }
      if ws.value == OPEN {
        ok := !sendThrows;
      } else {
        ok := false;
      }
    }

    function GetReadyState(): (r: ReadyState)
      reads this
      ensures ws.None? ==> r == CLOSED
      ensures ws.Some? ==> r == ws.value
    {
      if ws.Some? then ws.value else CLOSED
    }

    /** close(): asks an existing socket to close. */
    method Close()
      modifies this
      ensures old(ws) == None ==> ws == None
      ensures old(ws) == Some(OPEN) || old(ws) == Some(CONNECTING) ==> ws == Some(CLOSING)
      ensures old(ws) == Some(CLOSING) || old(ws) == Some(CLOSED) ==> ws == old(ws)
      ensures isConnected == old(isConnected) && isConnecting == old(isConnecting)
    {
      if ws.Some? && (ws.value == OPEN || ws.value == CONNECTING) {
        ws := Some(CLOSING);
      }
    }

    predicate IsReady()
      reads this
    {
      ws == Some(OPEN)
    }
  }
}
