/** Names, signals and connection states shared by the engine and the peers
    (rtc/peer/channel.rs, rtc/commands.rs). */
module Signals {
  datatype UserId = UserId(name: string)

  datatype CallId = CallId(name: string)

  datatype Sdp = Offer(text: string) | Answer(text: string)

  datatype Signal = SdpSignal(sdp: Sdp) | Candidate(candidate: string)

  predicate IsOffer(s: Signal) {
    s.SdpSignal? && s.sdp.Offer?
  }

  predicate IsAnswer(s: Signal) {
    s.SdpSignal? && s.sdp.Answer?
  }

  datatype ConnectionState = Connected | Connecting | Disconnected

  datatype IceState = IceNew | IceChecking | IceConnected | IceCompleted | IceDisconnected
}
