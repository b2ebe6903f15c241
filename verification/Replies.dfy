/** What the server answers to the auth requests, and what the client reads in it. */
module Replies {

  /** How much of an error code the client looks at. */
  datatype ErrorCode = TokenFailure | AlreadyLoggedIn | OtherCode

  /** How a request ends; without an answer it has timed out, lost its link or been cancelled. */
  datatype Reply = Answered | ApiError(code: ErrorCode) | NoAnswer

  /** How an attempt to establish a session ends. */
  datatype Established = Success | TokenExpired | AccountRefused(alreadyAuthorized: bool) | Raised

  /** What a probe has to say about a session. */
  datatype Probe = Live | Dead | TokenTrouble | Unanswered

  /** An expired token is not even sent. */
  function Verdict(expired: bool, reply: Reply): Established {
    if expired then TokenExpired
    else match reply
         case Answered => Success
         case ApiError(code) => if code == TokenFailure then TokenExpired else AccountRefused(code == AlreadyLoggedIn)
         case NoAnswer => Raised
  }

  function ProbeOf(reply: Reply): Probe {
    match reply
    case Answered => Live
    case ApiError(code) => if code == TokenFailure then TokenTrouble else Dead
    case NoAnswer => Unanswered
  }
}
