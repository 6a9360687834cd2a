// The handshake: which connections a server admits, which parameters take effect,
// and why both ends then hold transformers that fit together.

module Handshake {
  import opened Basics
  import opened Wire
  import opened Transform

  /** The connection parameters of one side, as configured. */
  datatype Config = Config(compress: bool, encrypt: bool, key: seq<u8>, credit: int)

  /** CONNECT: what the client asks for. */
  datatype Connect = Connect(version: int, compress: bool, encrypt: bool, credit: int)

  /** The part of CONNACK that fixes the connection's parameters. */
  datatype Connack = Connack(compress: bool, encrypt: bool, credit: int)

  /** NewServer and Dial refuse a configuration whose own key cannot encrypt. */
  predicate Usable(cfg: Config) {
    NewTransformer(cfg.compress, cfg.encrypt, cfg.key).Some?
  }

  function ClientConnect(cfg: Config): Connect {
    Connect(PROTOCOL_VERSION, cfg.compress, cfg.encrypt, cfg.credit)
  }

  /** `effectiveConnack`: the server's configuration is the ceiling, the client's request the wish. */
  function EffectiveConnack(srv: Config, cj: Connect): (aj: Connack)
    ensures aj.credit >= 0
    ensures aj.credit > 0 <==> srv.credit > 0 && cj.credit > 0
    ensures aj.credit > 0 ==> aj.credit <= srv.credit && aj.credit <= cj.credit && aj.credit in {srv.credit, cj.credit}
  {
    Connack(srv.compress && cj.compress, srv.encrypt && cj.encrypt,
            if srv.credit > 0 && cj.credit > 0 then (if srv.credit <= cj.credit then srv.credit else cj.credit) else 0)
  }

  datatype Verdict = Refuse(code: ErrorCode) | Establish(aj: Connack, tx: Transformer)

  /** The admission checks of handleConn, in order. `decoded` is None when the CONNECT payload does not decode,
      `auth` is the code the auth hook refused with, if it did. */
  function Admit(srv: Config, ty: u8, decoded: Option<Connect>, auth: Option<ErrorCode>): (v: Verdict)
    ensures v.Establish? <==>
      && ty == 0x01 && decoded.Some? && decoded.value.version == 1 && auth.None?
      && (srv.encrypt ==> decoded.value.encrypt && |srv.key| == 32)
    ensures v.Establish? ==>
      && v.aj.compress == (srv.compress && decoded.value.compress)
      && v.aj.encrypt == (srv.encrypt && decoded.value.encrypt)
      && v.tx == Transformer(v.aj.compress, v.aj.encrypt, srv.key)
    ensures ty != 0x01 ==> v == Refuse(Protocol)
    ensures ty == 0x01 && decoded.None? ==> v == Refuse(Invalid)
    ensures ty == 0x01 && decoded.Some? && decoded.value.version != 1 ==> v == Refuse(Protocol)
    ensures ty == 0x01 && decoded.Some? && decoded.value.version == 1 && auth.Some? ==> v == Refuse(auth.value)
    ensures ty == 0x01 && decoded.Some? && decoded.value.version == 1 && auth.None? && srv.encrypt ==>
      && (!decoded.value.encrypt ==> v == Refuse(AuthDenied))
      && (decoded.value.encrypt && |srv.key| != 32 ==> v == Refuse(Internal))
  {
    if ty != CONNECT then Refuse(Protocol)
    else match decoded
      case None => Refuse(Invalid)
      case Some(cj) =>
        if cj.version != PROTOCOL_VERSION then Refuse(Protocol)
        else if auth.Some? then Refuse(auth.value)
        else if srv.encrypt && !cj.encrypt then Refuse(AuthDenied)
        else
          var aj := EffectiveConnack(srv, cj);
          match NewTransformer(aj.compress, aj.encrypt, srv.key)
          case None => Refuse(Internal)
          case Some(tx) => Establish(aj, tx)
  }

  /** The client builds its transformer from the CONNACK and its own key. */
  function ClientTransformer(cli: Config, aj: Connack): Option<Transformer> {
    NewTransformer(aj.compress, aj.encrypt, cli.key)
  }

  /** Two usable configurations connect exactly when the server's encryption demand is met and auth passes.
      Then neither end can fail to build its transformer, a server that encrypts never talks in the clear,
      and the two transformers are equal unless an encrypted link was given different keys. */
  lemma Negotiated(srv: Config, cli: Config, auth: Option<ErrorCode>)
    requires Usable(srv) && Usable(cli)
    ensures var v := Admit(srv, CONNECT, Some(ClientConnect(cli)), auth);
      && (v.Establish? <==> auth.None? && (srv.encrypt ==> cli.encrypt))
      && (v.Establish? ==>
            var there := ClientTransformer(cli, v.aj);
            && v.aj.encrypt == srv.encrypt
            && v.aj.compress == (srv.compress && cli.compress)
            && there.Some? && Valid(v.tx) && Valid(there.value)
            && there.value.compress == v.tx.compress && there.value.encrypt == v.tx.encrypt
            && (there.value == v.tx <==> srv.key == cli.key))
      && (v == Refuse(Internal) ==> auth == Some(Internal))
  {
  }

  /** Credit is symmetric in the two wishes: swapping the roles of the sides does not change the window. */
  lemma CreditSymmetric(a: Config, b: Config)
    ensures EffectiveConnack(a, ClientConnect(b)).credit == EffectiveConnack(b, ClientConnect(a)).credit
  {
  }
}
