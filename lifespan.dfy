/** `lifespan`: webhook registration at start-up and its teardown at shutdown, with the
    optional ngrok tunnel. The environment and the results of the external steps are
    parameters; the run is recorded as the sequence of actions it performs. */
module Lifespan {
  import opened Wrappers
  import opened TelegramClient

  /** The variables `_get_public_url` reads: `RENDER`, `USE_NGROK`, `RENDER_EXTERNAL_URL`,
      and the dev-server port taken from the command line. */
  datatype Environment = Environment(render: Option<string>, useNgrok: Option<string>,
                                     renderExternalUrl: Option<string>, port: string)

  /** What `ngrok.connect(port)` did. */
  datatype TunnelResult = Connected(publicUrl: string) | ConnectFailed

  datatype Action =
    | OpenTunnel(port: string)
    | Telegram(request: Request)
    | CloseTunnel(publicUrl: string)
    | Serve  // the `yield`: the application runs

  /** Whether `_get_public_url` tries to open a tunnel. */
  predicate TriesTunnel(env: Environment) {
    !TruthyText(env.render) && TruthyText(env.useNgrok)
  }

  /** `_get_public_url`: the public URL and whether it is a tunnel that must be closed. */
  function PublicUrl(env: Environment, tunnel: TunnelResult): (r: (Option<string>, bool))
    ensures r.1 <==> TriesTunnel(env) && tunnel.Connected?
    ensures r.1 ==> r.0 == Some(tunnel.publicUrl)
    ensures TruthyText(env.render) ==> r.0 == env.renderExternalUrl
    ensures !TruthyText(env.render) && !(TriesTunnel(env) && tunnel.Connected?) ==> r.0.None?
  {
    if TruthyText(env.render) then (env.renderExternalUrl, false)
    else if TruthyText(env.useNgrok) then
      match tunnel
      case Connected(u) => (Some(u), true)
      case ConnectFailed => (None, false)
    else (None, false)
  }

  const WebhookPath := "/webhook"

  /** Number of tunnel closings in a run. */
  function Closes(actions: seq<Action>): nat {
    if actions == [] then 0 else (if actions[0].CloseTunnel? then 1 else 0) + Closes(actions[1..])
  }

  lemma {:induction false} ClosesAppend(a: seq<Action>, b: seq<Action>)
    ensures Closes(a + b) == Closes(a) + Closes(b)
  {
    if a == [] {
      assert a + b == b;
    } else {
      assert (a + b)[1..] == a[1..] + b;
      ClosesAppend(a[1..], b);
    }
  }

  lemma ClosesSnoc(a: seq<Action>, x: Action)
    ensures Closes(a + [x]) == Closes(a) + if x.CloseTunnel? then 1 else 0
  {
    ClosesAppend(a, [x]);
    assert [x][1..] == [];
  }

  /** The run's `setWebhook` request for `publicUrl`, the configured secret sent along. */
  predicate SetsWebhook(a: Action, token: string, publicUrl: string, secret: Option<string>) {
    a.Telegram? && IsSetWebhook(a.request, token, publicUrl + WebhookPath, secret)
  }

  /** One run of the context manager. `setupOk` says whether `setWebhook` succeeded; the
      results of `deleteWebhook` and `ngrok.disconnect` do not matter, their errors being
      swallowed. */
  method RunLifespan(env: Environment, tunnel: TunnelResult, token: string,
                     secret: Option<string>, setupOk: bool)
    returns (actions: seq<Action>)
    ensures var (url, tunnelOwned) := PublicUrl(env, tunnel);
            var prefix := if TriesTunnel(env) then [OpenTunnel(env.port)] else [];
            && |actions| >= |prefix| + 1
            && actions[..|prefix|] == prefix
            // no public URL: nothing is registered and nothing torn down
            && (!TruthyText(url) ==> actions == prefix + [Serve])
            && (TruthyText(url) ==>
                  (|actions| >= |prefix| + 2 && SetsWebhook(actions[|prefix|], token, url.value, secret)))
            // registration failed on an owned tunnel: roll back, and teardown does nothing
            && (TruthyText(url) && !setupOk && tunnelOwned ==>
                  actions == prefix + [actions[|prefix|], CloseTunnel(url.value), Serve])
            // otherwise teardown deletes the webhook (even after a failed registration),
            // and closes the tunnel only if it owns one
            && (TruthyText(url) && (setupOk || !tunnelOwned) ==>
                  actions == prefix + [actions[|prefix|], Serve, Telegram(DeleteWebhook(token, true))]
                             + (if tunnelOwned then [CloseTunnel(url.value)] else []))
    // an owned tunnel with a usable URL is closed exactly once; no other tunnel is closed
    ensures var (url, tunnelOwned) := PublicUrl(env, tunnel);
            Closes(actions) == if tunnelOwned && TruthyText(url) then 1 else 0
  {
    actions := [];
    if TriesTunnel(env) {
      ClosesSnoc(actions, OpenTunnel(env.port));
      actions := actions + [OpenTunnel(env.port)];
    }
    var publicUrl, needsCleanup := PublicUrl(env, tunnel).0, PublicUrl(env, tunnel).1;
    if TruthyText(publicUrl) {
      var setup := SetWebhook(token, publicUrl.value + WebhookPath, secret);
      ClosesSnoc(actions, Telegram(setup));
      actions := actions + [Telegram(setup)];
      if !setupOk && needsCleanup {
        ClosesSnoc(actions, CloseTunnel(publicUrl.value));
        actions := actions + [CloseTunnel(publicUrl.value)];
        publicUrl := None;
      }
    }
    ClosesSnoc(actions, Serve);
    actions := actions + [Serve];
    if TruthyText(publicUrl) {
      ClosesSnoc(actions, Telegram(DeleteWebhook(token, true)));
      actions := actions + [Telegram(DeleteWebhook(token, true))];
      if needsCleanup {
        ClosesSnoc(actions, CloseTunnel(publicUrl.value));
        actions := actions + [CloseTunnel(publicUrl.value)];
      }
    }
  }
}
