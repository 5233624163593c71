/** The external effects as methods: docker, the file system, the clients and the tunnel. Every one of
    them may fail; how each goes is an input, `o`, and it succeeds only where that is possible. */
module Sandboxes {
  import opened Store
  import opened World

  class Host {
    var worlds: map<Sid, World>

    constructor ()
      ensures worlds == map[]
    {
      worlds := map[];
    }

    /** The session's empty directories. */
    method MakePaths(sid: Sid)
      modifies this
      ensures worlds == old(worlds)[sid := NOTHING]
    {
      worlds := worlds[sid := NOTHING];
    }

    method RemovePaths(sid: Sid)
      modifies this
      ensures worlds == old(worlds) - {sid}
    {
      worlds := worlds - {sid};
    }

    method RenderCompose(sid: Sid, bind: Bind, o: Outcome)
      requires sid in worlds
      modifies this
      ensures worlds == old(worlds)[sid := Render(old(worlds)[sid], bind, o)]
    {
      worlds := worlds[sid := Render(worlds[sid], bind, o)];
    }

    method UpSession(sid: Sid, o: Outcome) returns (r: Outcome)
      requires sid in worlds
      modifies this
      ensures r == Feasible(o, old(worlds)[sid].file.Some?)
      ensures worlds == old(worlds)[sid := Up(old(worlds)[sid], r)]
    {
      r := Feasible(o, worlds[sid].file.Some?);
      worlds := worlds[sid := Up(worlds[sid], r)];
    }

    method DownSession(sid: Sid, removeVolumes: bool, o: Outcome) returns (r: Outcome)
      requires sid in worlds
      modifies this
      ensures r == Feasible(o, old(worlds)[sid].file.Some?)
      ensures worlds == old(worlds)[sid := Down(old(worlds)[sid], removeVolumes, r)]
    {
      r := Feasible(o, worlds[sid].file.Some?);
      worlds := worlds[sid := Down(worlds[sid], removeVolumes, r)];
    }

    /** `wait_healthy`, `wait_ready`: nothing changes, and only a running server answers. */
    method WaitFor(sid: Sid, o: Outcome) returns (r: Outcome)
      requires sid in worlds
      ensures r.Done? <==> o.Done? && worlds[sid].container.Some?
      ensures r == Feasible(o, worlds[sid].container.Some?)
    {
      r := Feasible(o, worlds[sid].container.Some?);
    }

    method SetLog(sid: Sid, on: bool, o: Outcome) returns (r: Outcome)
      requires sid in worlds
      modifies this
      ensures r == Feasible(o, old(worlds)[sid].container.Some?)
      ensures worlds == old(worlds)[sid := SetGeneralLog(old(worlds)[sid], on, r)]
    {
      r := Feasible(o, worlds[sid].container.Some?);
      worlds := worlds[sid := SetGeneralLog(worlds[sid], on, r)];
    }

    method Open(sid: Sid, o: Outcome)
      requires sid in worlds
      modifies this
      ensures worlds == old(worlds)[sid := OpenTunnel(old(worlds)[sid], o)]
    {
      worlds := worlds[sid := OpenTunnel(worlds[sid], o)];
    }

    method Close(sid: Sid, o: Outcome)
      requires sid in worlds
      modifies this
      ensures worlds == old(worlds)[sid := CloseTunnel(old(worlds)[sid], o)]
    {
      worlds := worlds[sid := CloseTunnel(worlds[sid], o)];
    }

    /** An empty table list asks for a full dump. */
    method CloneDb(sid: Sid, db: string, tables: seq<string>, o: Outcome) returns (r: Outcome)
      requires sid in worlds
      modifies this
      ensures r == Feasible(o, old(worlds)[sid].container.Some?)
      ensures worlds == old(worlds)[sid := Clone(old(worlds)[sid], Dump(db, tables), r)]
    {
      r := Feasible(o, worlds[sid].container.Some?);
      worlds := worlds[sid := Clone(worlds[sid], Dump(db, tables), r)];
    }

    method GrantUsers(sid: Sid, grants: seq<Grant>, o: Outcome) returns (r: Outcome)
      requires sid in worlds
      modifies this
      ensures r == Feasible(o, old(worlds)[sid].container.Some?)
      ensures worlds == old(worlds)[sid := ApplyGrants(old(worlds)[sid], grants, r)]
    {
      r := Feasible(o, worlds[sid].container.Some?);
      worlds := worlds[sid := ApplyGrants(worlds[sid], grants, r)];
    }

    method RemoveSessionDir(sid: Sid, o: Outcome)
      requires sid in worlds
      modifies this
      ensures worlds == old(worlds)[sid := RemoveFiles(old(worlds)[sid], o)]
    {
      worlds := worlds[sid := RemoveFiles(worlds[sid], o)];
    }
  }
}
