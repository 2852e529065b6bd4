/** Vocabulary of direct file transfers: internal/dcc/types.go and the Offer record of
    internal/dcc/protocol.go. Timestamps, speed estimates, error texts and local paths carry no
    decision of the manager and are left out of Transfer. */
module DccTypes {

  datatype Direction = Incoming | Outgoing

  datatype Status =
    | Offered
    | Queued
    | Negotiating
    | Connecting
    | Transferring
    | Completed
    | Failed
    | Canceled
    | Declined
    | Resumable
  {
    predicate Active() {
      Offered? || Queued? || Negotiating? || Connecting? || Transferring?
    }
  }

  datatype Command = Send | Resume | Accept | Chat

  /** One parsed CTCP DCC control message. */
  datatype Offer = Offer(
    command: Command,
    filename: string,
    address: string,
    port: int,
    size: int,
    position: int,
    token: string,
    passive: bool)

  /** What a Go map lookup yields for an identifier without a saved offer. */
  const ZERO_OFFER := Offer(Send, "", "", 0, 0, 0, "", false)

  /** The manager's record of one transfer. `hasPartial` says that PartialPath is set. */
  datatype Transfer = Transfer(
    networkID: int,
    peer: string,
    direction: Direction,
    filename: string,
    hasPartial: bool,
    totalBytes: int,
    transferredBytes: int,
    status: Status,
    address: string,
    port: int,
    token: string,
    resumeOffset: int,
    fileAvailable: bool,
    resumable: bool)

  function FoldChar(c: char): char {
    if 'A' <= c <= 'Z' then (c as int + 32) as char else c
  }

  /** Case-insensitive comparison of nicknames. */
  predicate SamePeer(a: string, b: string) {
    |a| == |b| && forall i :: 0 <= i < |a| ==> FoldChar(a[i]) == FoldChar(b[i])
  }
}
