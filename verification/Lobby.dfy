/** Lobbies and the index from players to lobbies. */
module LobbyManager {
  import opened Serial
  import opened Protocol

  type PlayerId = nat
  type LobbyId = nat

  datatype Settings = Settings(maxPlayers: u8, password: Option<string>)

  datatype Lobby = Lobby(id: LobbyId, settings: Settings, players: seq<PlayerId>, host: PlayerId) {
    predicate IsFull() { |players| >= settings.maxPlayers }
  }

  datatype Lobbies = Lobbies(lobbies: map<LobbyId, Lobby>, playerLobbies: map<PlayerId, LobbyId>, nextLobbyId: LobbyId)

  datatype JoinError = AlreadyInLobby | NotFound | Full | InvalidPassword

  function IndexOf(players: seq<PlayerId>, p: PlayerId): (i: nat)
    ensures i <= |players|
    ensures forall j :: 0 <= j < i ==> players[j] != p
    ensures i < |players| ==> players[i] == p
  {
    if players == [] || players[0] == p then 0 else 1 + IndexOf(players[1..], p)
  }

  function WithPlayer(l: Lobby, p: PlayerId): Lobby {
    if l.IsFull() || p in l.players then l else l.(players := l.players + [p])
  }

  /** Removes a player; a leaving host is succeeded by the longest-standing one. */
  function WithoutPlayer(l: Lobby, p: PlayerId): Lobby {
    var i := IndexOf(l.players, p);
    if i == |l.players| then l else
    var players := l.players[..i] + l.players[i + 1..];
    l.(players := players, host := if l.host == p && players != [] then players[0] else l.host)
  }

  function Created(m: Lobbies, host: PlayerId, settings: Settings): Lobbies {
    var id := m.nextLobbyId;
    Lobbies(m.lobbies[id := Lobby(id, settings, [host], host)], m.playerLobbies[host := id], id + 1)
  }

  function JoinFailure(m: Lobbies, id: LobbyId, p: PlayerId, password: Option<string>): Option<JoinError> {
    if p in m.playerLobbies then Some(AlreadyInLobby)
    else if id !in m.lobbies then Some(NotFound)
    else if m.lobbies[id].IsFull() then Some(Full)
    else if m.lobbies[id].settings.password.Some? && password != m.lobbies[id].settings.password
      then Some(InvalidPassword)
    else None
  }

  function Joined(m: Lobbies, id: LobbyId, p: PlayerId, password: Option<string>): Lobbies {
    if JoinFailure(m, id, p, password).Some? || id !in m.lobbies then m
    else m.(lobbies := m.lobbies[id := WithPlayer(m.lobbies[id], p)], playerLobbies := m.playerLobbies[p := id])
  }

  function Left(m: Lobbies, p: PlayerId): Lobbies {
    if p !in m.playerLobbies then m else
    var id := m.playerLobbies[p];
    var unlisted := m.(playerLobbies := m.playerLobbies - {p});
    if id !in m.lobbies then unlisted else
    var l := WithoutPlayer(m.lobbies[id], p);
    unlisted.(lobbies := if l.players == [] then m.lobbies - {id} else m.lobbies[id := l])
  }

  datatype Op =
    | Create(host: PlayerId, settings: Settings)
    | Join(id: LobbyId, player: PlayerId, password: Option<string>)
    | Leave(player: PlayerId)

  function Next(m: Lobbies, op: Op): Lobbies {
    match op
    case Create(host, settings) => Created(m, host, settings)
    case Join(id, p, password) => Joined(m, id, p, password)
    case Leave(p) => Left(m, p)
  }

  function Run(ops: seq<Op>): Lobbies {
    if ops == [] then Lobbies(map[], map[], 0) else Next(Run(ops[..|ops| - 1]), ops[|ops| - 1])
  }

  /** What `create_lobby` does not check. */
  predicate HostIsFree(m: Lobbies, op: Op) { op.Create? ==> op.host !in m.playerLobbies }

  // ---------------------------------------------------------------- invariant

  ghost predicate Distinct(players: seq<PlayerId>) {
    forall i, j :: 0 <= i < j < |players| ==> players[i] != players[j]
  }

  /** Distinct players, the host among them, nobody beyond the limit. */
  ghost predicate LobbyOk(l: Lobby) {
    && Distinct(l.players) && l.host in l.players
    && |l.players| <= (if l.settings.maxPlayers > 1 then l.settings.maxPlayers else 1)
  }

  /** Player `p` is filed under lobby `id` exactly when it is in that lobby. */
  ghost predicate CrossIndexed(m: Lobbies) {
    && (forall p :: p in m.playerLobbies ==>
          m.playerLobbies[p] in m.lobbies && p in m.lobbies[m.playerLobbies[p]].players)
    && (forall id :: id in m.lobbies ==>
          forall p :: p in m.lobbies[id].players ==> p in m.playerLobbies && m.playerLobbies[p] == id)
  }

  ghost predicate Inv(m: Lobbies) {
    && CrossIndexed(m)
    && forall id :: id in m.lobbies ==> id < m.nextLobbyId && m.lobbies[id].id == id && LobbyOk(m.lobbies[id])
  }

  /** The others keep their order. */
  ghost predicate KeepsOrder(rest: seq<PlayerId>, players: seq<PlayerId>, p: PlayerId) {
    exists i :: 0 <= i < |players| && players[i] == p && rest == players[..i] + players[i + 1..]
  }

  lemma WithoutPlayerEffect(l: Lobby, p: PlayerId)
    requires LobbyOk(l) && p in l.players
    ensures var r := WithoutPlayer(l, p);
            && (forall q :: q in r.players <==> q in l.players && q != p)
            && Distinct(r.players) && |r.players| == |l.players| - 1
            && (r.players != [] ==> LobbyOk(r))
            && r == l.(players := r.players, host := r.host)
            && (r.players != [] ==> r.host == if l.host == p then r.players[0] else l.host)
            && KeepsOrder(r.players, l.players, p)
  {
    RemoveIndex(l.players, IndexOf(l.players, p));
  }

  lemma RemoveIndex(players: seq<PlayerId>, i: nat)
    requires Distinct(players) && i < |players|
    ensures var rest := players[..i] + players[i + 1..];
            && Distinct(rest) && |rest| == |players| - 1
            && forall q :: q in rest <==> q in players && q != players[i]
  {
    var rest := players[..i] + players[i + 1..];
    forall k | 0 <= k < |rest| ensures rest[k] == if k < i then players[k] else players[k + 1] {}
    assert players == players[..i] + [players[i]] + players[i + 1..];
    forall q | q in players && q != players[i] ensures q in rest {
      var k :| 0 <= k < |players| && players[k] == q;
      assert rest[if k < i then k else k - 1] == q;
    }
  }

  lemma CreateKeepsExactly(m: Lobbies, host: PlayerId, settings: Settings)
    requires Inv(m)
    ensures Inv(Created(m, host, settings)) <==> host !in m.playerLobbies
  {
    if host in m.playerLobbies {
      var m', old' := Created(m, host, settings), m.playerLobbies[host];
      assert host in m'.lobbies[old'].players && m'.playerLobbies[host] != old';
    } else {
      FreeHostKeeps(m, host, settings);
    }
  }

  lemma FreeHostKeeps(m: Lobbies, host: PlayerId, settings: Settings)
    requires Inv(m) && host !in m.playerLobbies
    ensures Inv(Created(m, host, settings))
  {
    var l := Lobby(m.nextLobbyId, settings, [host], host);
    assert m.nextLobbyId !in m.lobbies;
    assert LobbyOk(l);
    assert forall p :: p in l.players <==> p == host;
  }

  lemma JoinKeeps(m: Lobbies, id: LobbyId, p: PlayerId, password: Option<string>)
    requires Inv(m)
    ensures Inv(Joined(m, id, p, password))
    ensures JoinFailure(m, id, p, password).None? ==>
              Joined(m, id, p, password).playerLobbies == m.playerLobbies[p := id]
              && p in Joined(m, id, p, password).lobbies[id].players
  {
    if JoinFailure(m, id, p, password).None? {
      OneJoins(m, id, p, WithPlayer(m.lobbies[id], p));
    }
  }

  lemma OneJoins(m: Lobbies, id: LobbyId, p: PlayerId, l: Lobby)
    requires Inv(m) && id in m.lobbies && !m.lobbies[id].IsFull() && p !in m.playerLobbies
    requires l == WithPlayer(m.lobbies[id], p)
    ensures Inv(m.(lobbies := m.lobbies[id := l], playerLobbies := m.playerLobbies[p := id])) && p in l.players
  {
    var before := m.lobbies[id].players;
    assert p !in before;
    assert l.players == before + [p];
    assert l.players[|before|] == p;
    assert LobbyOk(l);
  }

  lemma LeaveKeeps(m: Lobbies, p: PlayerId)
    requires Inv(m)
    ensures Inv(Left(m, p)) && p !in Left(m, p).playerLobbies
  {
    if p in m.playerLobbies {
      var id := m.playerLobbies[p];
      var l := WithoutPlayer(m.lobbies[id], p);
      WithoutPlayerEffect(m.lobbies[id], p);
      if l.players == [] { LastLeaves(m, id, p); } else { OneLeaves(m, id, p, l); }
    }
  }

  lemma LastLeaves(m: Lobbies, id: LobbyId, p: PlayerId)
    requires Inv(m) && id in m.lobbies && forall q :: q in m.lobbies[id].players <==> q == p
    ensures Inv(m.(playerLobbies := m.playerLobbies - {p}, lobbies := m.lobbies - {id}))
  {
  }

  lemma OneLeaves(m: Lobbies, id: LobbyId, p: PlayerId, l: Lobby)
    requires Inv(m) && id in m.lobbies && p in m.lobbies[id].players
    requires LobbyOk(l) && l.id == id && forall q :: q in l.players <==> q in m.lobbies[id].players && q != p
    ensures Inv(m.(playerLobbies := m.playerLobbies - {p}, lobbies := m.lobbies[id := l]))
  {
  }

  /** One operation keeps the index exact if and only if it is not the creation
      of a lobby by a player who is already in one. */
  lemma StepKeepsExactly(m: Lobbies, op: Op)
    requires Inv(m)
    ensures Inv(Next(m, op)) <==> HostIsFree(m, op)
  {
    match op
    case Create(host, settings) => CreateKeepsExactly(m, host, settings);
    case Join(id, p, password) => JoinKeeps(m, id, p, password);
    case Leave(p) => LeaveKeeps(m, p);
  }

  /** In every run whose creators are free the two maps agree: a player is filed
      under a lobby exactly when it is in it, no lobby is empty, players are
      distinct, the host is one of them, and no lobby is over its limit. */
  lemma {:induction false} LobbyInvariant(ops: seq<Op>)
    requires forall i :: 0 <= i < |ops| ==> HostIsFree(Run(ops[..i]), ops[i])
    ensures Inv(Run(ops))
  {
    if ops == [] {
    } else {
      var front := ops[..|ops| - 1];
      forall i | 0 <= i < |front| ensures HostIsFree(Run(front[..i]), front[i]) {
        assert front[..i] == ops[..i] && front[i] == ops[i];
      }
      LobbyInvariant(front);
      assert HostIsFree(Run(ops[..|ops| - 1]), ops[|ops| - 1]);
      StepKeepsExactly(Run(front), ops[|ops| - 1]);
    }
  }

  /** A host who creates twice stays listed in the first lobby but is filed under
      the second. */
  lemma SecondLobbyBreaksIndex(host: PlayerId, settings: Settings)
    ensures var m := Run([Create(host, settings), Create(host, settings)]);
            && 0 in m.lobbies && host in m.lobbies[0].players
            && host in m.playerLobbies && m.playerLobbies[host] == 1
            && !Inv(m)
  {
    var op := Create(host, settings);
    assert [op, op][..1] == [op] && [op][..0] == [];
    assert Run([op]) == Next(Run([]), op);
    var m := Run([op, op]);
    assert m == Next(Run([op]), op);
    assert host in m.lobbies[0].players;
  }

  // -------------------------------------------------------------------- class

  class Manager {
    var lobbies: map<LobbyId, Lobby>
    var playerLobbies: map<PlayerId, LobbyId>
    var nextLobbyId: LobbyId

    ghost function Value(): Lobbies
      reads this
    {
      Lobbies(lobbies, playerLobbies, nextLobbyId)
    }

    constructor ()
      ensures Value() == Run([])
    {
      lobbies, playerLobbies, nextLobbyId := map[], map[], 0;
    }

    method CreateLobby(host: PlayerId, settings: Settings) returns (id: LobbyId)
      modifies this
      ensures Value() == Created(old(Value()), host, settings) && id == old(nextLobbyId)
      ensures lobbies == old(lobbies)[id := Lobby(id, settings, [host], host)] && nextLobbyId == id + 1
      ensures playerLobbies == old(playerLobbies)[host := id]
    {
      id := nextLobbyId;
      nextLobbyId := nextLobbyId + 1;
      lobbies := lobbies[id := Lobby(id, settings, [host], host)];
      playerLobbies := playerLobbies[host := id];
    }

    method JoinLobby(id: LobbyId, player: PlayerId, password: Option<string>) returns (failure: Option<JoinError>)
      modifies this
      ensures Value() == Joined(old(Value()), id, player, password)
      ensures failure == JoinFailure(old(Value()), id, player, password)
      ensures failure == Some(AlreadyInLobby) <==> player in old(playerLobbies)
      ensures failure == Some(NotFound) <==> player !in old(playerLobbies) && id !in old(lobbies)
      ensures player !in old(playerLobbies) && id in old(lobbies) ==>
                var lobby := old(lobbies)[id];
                && (failure == Some(Full) <==> |lobby.players| >= lobby.settings.maxPlayers)
                && (|lobby.players| < lobby.settings.maxPlayers ==>
                      (failure == None <==> lobby.settings.password == None || password == lobby.settings.password))
      ensures failure.Some? ==> lobbies == old(lobbies) && playerLobbies == old(playerLobbies)
      ensures failure == None ==>
                && playerLobbies == old(playerLobbies)[player := id] && id in old(lobbies) && id in lobbies
                && lobbies.Keys == old(lobbies).Keys
                && lobbies[id] == old(lobbies)[id].(players := lobbies[id].players)
                && (player !in old(lobbies)[id].players ==> lobbies[id].players == old(lobbies)[id].players + [player])
    {
      if player in playerLobbies {
        return Some(AlreadyInLobby);
      }
      if id !in lobbies {
        return Some(NotFound);
      }
      var lobby := lobbies[id];
      if |lobby.players| >= lobby.settings.maxPlayers {
        return Some(Full);
      }
      if lobby.settings.password.Some? {
        if password.None? || password.value != lobby.settings.password.value {
          return Some(InvalidPassword);
        }
      }
      if player !in lobby.players {
        lobby := lobby.(players := lobby.players + [player]);
      }
      lobbies := lobbies[id := lobby];
      playerLobbies := playerLobbies[player := id];
      return None;
    }

    method LeaveLobby(player: PlayerId) returns (left: Option<LobbyId>)
      modifies this
      ensures Value() == Left(old(Value()), player)
      ensures left == if player in old(playerLobbies) && old(playerLobbies)[player] in old(lobbies)
                      then Some(old(playerLobbies)[player]) else None
      ensures playerLobbies == old(playerLobbies) - {player}
    {
      if player !in playerLobbies {
        return None;
      }
      var id := playerLobbies[player];
      playerLobbies := playerLobbies - {player};
      if id !in lobbies {
        return None;
      }
      var lobby := RemovePlayer(lobbies[id], player);
      if lobby.players == [] {
        lobbies := lobbies - {id};
      } else {
        lobbies := lobbies[id := lobby];
      }
      return Some(id);
    }
  }

  method RemovePlayer(l: Lobby, p: PlayerId) returns (r: Lobby)
    ensures r == WithoutPlayer(l, p)
  {
    var i := 0;
    while i < |l.players| && l.players[i] != p
      invariant i <= IndexOf(l.players, p)
    {
      i := i + 1;
    }
    if i == |l.players| {
      return l;
    }
    var players := l.players[..i] + l.players[i + 1..];
    r := l.(players := players);
    if l.host == p && players != [] {
      r := r.(host := players[0]);
    }
  }
}
