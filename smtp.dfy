/** The SMTP transport (yagmail), reduced to the call the application makes
    and what came back from it. */
module Smtp {
  import opened Values

  /** The arguments handed to the client and to `send`. `ssl` is None when
      the caller leaves the choice to the library. */
  datatype SmtpCall = SmtpCall(
    user: Option<string>,
    password: Option<string>,
    host: Option<string>,
    port: Option<string>,
    ssl: Option<bool>,
    to: Option<string>,
    subject: Option<string>,
    contents: Option<string>,
    attachments: Option<seq<Option<string>>>)

  /** What the transport did: it returned a boolean, or it raised. */
  datatype Delivery = Delivered(accepted: bool) | TransportFailed

  /** What `send` hands back to its caller. */
  function Sent(d: Delivery): (r: Result<bool>)
    ensures r.Ok? <==> d.Delivered?
    ensures d.Delivered? ==> r.value == d.accepted
  {
    match d
    case Delivered(accepted) => Ok(accepted)
    case TransportFailed => Err(TransportError)
  }
}
