/** What the session layer promises across its calls: which calls touch the
    store and how, how many requests the profile call can send, and that every
    authenticated request carries the token the store holds when it is sent. */
module SessionProperties {
  import opened Common
  import opened Session

  lemma {:induction false} SentAppend(a: seq<Effect>, b: seq<Effect>)
    ensures Sent(a + b) == Sent(a) + Sent(b)
    decreases |a|
  {
    if a == [] {
      assert a + b == b;
    } else {
      assert (a + b)[0] == a[0] && (a + b)[1..] == a[1..] + b;
      SentAppend(a[1..], b);
    }
  }

  lemma SentOne(e: Effect)
    ensures Sent([e]) == if e.Send? then [e.request] else []
  {
    assert [e][1..] == [];
  }

  /** Sign-up and sign-in send exactly one request. The store changes only
      on an ok, decodable reply carrying a usable token and vendor id, and
      then exactly `token` and `vendorId` are set, to those values. */
  lemma AuthExchangeStore(store: Store, kind: AuthKind, form: map<string, string>, reply: Reply<AuthBody>)
    ensures var c := AuthExchange(store, kind, form, reply);
            && Sent(c.effects) == [AuthRequest(kind, form)]
            && Replay(store, c.effects) ==
                 if c.result.Success? && Usable(c.result.value.data.token) && Usable(c.result.value.data.vendorId)
                 then store[TokenKey := c.result.value.data.token.value][VendorIdKey := c.result.value.data.vendorId.value]
                 else store
  {
    var c := AuthExchange(store, kind, form, reply);
    var first := Send(AuthRequest(kind, form));
    SentOne(first);
    if |c.effects| == 1 {
      assert c.effects == [first];
      ReplayReadOnly(store, c.effects);
    } else {
      var data := c.result.value.data;
      var pairs := [(TokenKey, data.token.value), (VendorIdKey, data.vendorId.value)];
      assert c.effects == [first] + [Write(pairs)];
      SentAppend([first], [Write(pairs)]);
      SentOne(Write(pairs));
      ReplayAppend(store, [first], [Write(pairs)]);
      ReplayReadOnly(store, [first]);
      assert [Write(pairs)][1..] == [];
      assert pairs[1..][1..] == [];
      assert Assign(store, pairs) == Assign(store[TokenKey := data.token.value], pairs[1..]);
    }
  }

  /** The sign-up scenario: a reply with token `t1` and vendor id `v1` leaves
      exactly those two values stored. */
  lemma SignUpScenario(store: Store, form: map<string, string>)
    ensures var reply := Reply(200, "", Some(Body(None, AuthBody(Some("t1"), Some("v1")))));
            var c := AuthExchange(store, SignUpKind, form, reply);
            && c.result.Success?
            && Lookup(Replay(store, c.effects), TokenKey) == Some("t1")
            && Lookup(Replay(store, c.effects), VendorIdKey) == Some("v1")
  {
    var reply := Reply(200, "", Some(Body(None, AuthBody(Some("t1"), Some("v1")))));
    AuthExchangeStore(store, SignUpKind, form, reply);
  }

  /** The profile call's refresh succeeded: a usable token drew a 401, a usable
      refresh token was stored and the refresh reply was ok and decodable. */
  predicate RefreshSucceeded<B>(store: Store, first: Reply<B>, refresh: Reply<RefreshBody>) {
    && Usable(Lookup(store, TokenKey))
    && first.Reply? && first.status == Unauthorized
    && Usable(Lookup(store, RefreshTokenKey))
    && refresh.Reply? && Ok(refresh.status) && refresh.body.Some?
  }

  /** The profile call sends at most three requests: a profile request, then
      (only after a 401) one refresh request, then one retried profile request. */
  lemma ProfileRequestsBounded<B>(store: Store, first: Reply<B>, refresh: Reply<RefreshBody>, retry: Reply<B>)
    ensures var s := Sent(ProfileFlow(store, first, refresh, retry).effects);
            && |s| <= 3
            && (forall i :: 0 <= i < |s| ==> (s[i].RefreshRequest? <==> i == 1))
            && (forall i :: 0 <= i < |s| && i != 1 ==> s[i].ProfileRequest?)
            && (|s| >= 2 ==> first.Reply? && first.status == Unauthorized)
            && (|s| == 3 <==> RefreshSucceeded(store, first, refresh))
  {
    var e := ProfileFlow(store, first, refresh, retry).effects;
    if |e| == 1 {
      SentOfOne(e[0]);
      assert e == [e[0]];
    } else if |e| == 2 {
      SentOfTwo(e[0], e[1]);
      assert e == [e[0], e[1]];
    } else if |e| == 4 {
      SentOfFour(e[0], e[1], e[2], e[3]);
      assert e == [e[0], e[1], e[2], e[3]];
    }
  }

  lemma SentOfOne(a: Effect)
    requires a.Send?
    ensures Sent([a]) == [a.request]
  {
    SentOne(a);
  }

  lemma SentOfTwo(a: Effect, b: Effect)
    requires a.Send? && b.Send?
    ensures Sent([a, b]) == [a.request, b.request]
  {
    assert [a, b] == [a] + [b];
    SentAppend([a], [b]);
    SentOne(a);
    SentOne(b);
  }

  lemma SentOfFour(a: Effect, b: Effect, w: Effect, d: Effect)
    requires a.Send? && b.Send? && w.Write? && d.Send?
    ensures Sent([a, b, w, d]) == [a.request, b.request, d.request]
  {
    assert [a, b, w, d] == [a, b] + [w] + [d];
    SentAppend([a, b] + [w], [d]);
    SentAppend([a, b], [w]);
    SentOfTwo(a, b);
    SentOne(w);
    SentOne(d);
  }

  /** After a successful refresh the new access token is written before the
      retry is sent, and the retry carries it. The store changes in no other
      case, and then only its `token`. */
  lemma ProfileTokenRefresh<B>(store: Store, first: Reply<B>, refresh: Reply<RefreshBody>, retry: Reply<B>)
    ensures var c := ProfileFlow(store, first, refresh, retry);
            if RefreshSucceeded(store, first, refresh) then
              var accessToken := refresh.body.value.data.accessToken;
              && c.effects == [Send(ProfileRequest(AuthHeader(store[TokenKey]))),
                               Send(RefreshRequest(store[RefreshTokenKey])),
                               Write([(TokenKey, accessToken)]),
                               Send(ProfileRequest(AuthHeader(accessToken)))]
              && Replay(store, c.effects) == store[TokenKey := accessToken]
            else
              Replay(store, c.effects) == store
  {
    var c := ProfileFlow(store, first, refresh, retry);
    if RefreshSucceeded(store, first, refresh) {
      ReplayTokenRefresh(store, c.effects, refresh.body.value.data.accessToken);
    } else {
      ReplayReadOnly(store, c.effects);
    }
  }

  /** The profile call resolves with the profile exactly when the last profile
      reply was ok and decodable; every other path resolves to `null`. */
  lemma ProfileNullOnFailure<B>(store: Store, first: Reply<B>, refresh: Reply<RefreshBody>, retry: Reply<B>)
    ensures var c := ProfileFlow(store, first, refresh, retry);
            var last := if first.Reply? && first.status == Unauthorized then retry else first;
            && (c.result.Success? <==>
                 && Usable(Lookup(store, TokenKey))
                 && (first.Reply? && first.status == Unauthorized ==> RefreshSucceeded(store, first, refresh))
                 && last.Reply? && Ok(last.status) && last.body.Some?)
            && (c.result.Success? ==> c.result.value == last.body.value)
            && (!Usable(Lookup(store, TokenKey)) ==> c.result == Failure(Thrown(NoTokenFound)))
            && ((Usable(Lookup(store, TokenKey)) && first.Reply? && first.status == Unauthorized
                 && !Usable(Lookup(store, RefreshTokenKey))) ==> c.result == Failure(Thrown(RefreshTokenMissing)))
  {
  }

  /** Every bearer header the profile call sends is the one for the token
      stored at that moment, the retry included. */
  lemma {:induction false} ProfileBearerMatchesStore<B>(store: Store, first: Reply<B>, refresh: Reply<RefreshBody>, retry: Reply<B>)
    ensures BearerMatchesStore(store, ProfileFlow(store, first, refresh, retry).effects)
  {
    var e := ProfileFlow(store, first, refresh, retry).effects;
    if |e| == 1 {
      assert e[1..] == [];
    } else if |e| == 2 {
      assert e[1..][1..] == [];
    } else if |e| == 4 {
      var accessToken := refresh.body.value.data.accessToken;
      var after := store[TokenKey := accessToken];
      assert e[1..][1..] == e[2..] && e[2..][1..] == e[3..] && e[3..][1..] == [];
      assert [(TokenKey, accessToken)][1..] == [];
      assert Assign(store, [(TokenKey, accessToken)]) == Assign(after, []);
      assert BearerMatchesStore(after, e[3..]);
      assert BearerMatchesStore(store, e[2..]);
      assert BearerMatchesStore(store, e[1..]);
    }
  }
}
