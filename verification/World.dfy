/** What a session owns outside the store: its compose file, container, data volume, general log and
    the ssh tunnel to prod; and what each external effect does to them.

    Every effect may fail, and a failing one may have done nothing, part of its work or all of it. */
module World {
  import opened Wrappers

  /** The address the container's port is published on: 127.0.0.1 or 0.0.0.0. */
  datatype Bind = Private | Public

  /** One clone: the database, and the tables asked for; none means the whole database. */
  datatype Dump = Dump(db: string, tables: seq<string>)

  /** One user of one database. */
  datatype Grant = Grant(db: string, user: string, password: string)

  /** What was cloned into the volume (in order), the users and grants once they are applied, and whether a
      failed clone may have left half a database behind. */
  datatype Volume = Volume(clones: seq<Dump>, granted: Option<seq<Grant>>, dirty: bool)

  const EMPTY_VOLUME := Volume([], None, false)

  datatype World = World(
    file: Option<Bind>,
    container: Option<Bind>,
    volume: Option<Volume>,
    generalLog: bool,
    tunnel: bool
  )

  const NOTHING := World(None, None, None, false, false)

  datatype Reach = Nothing | Partly | Fully

  datatype Outcome = Done | Failed(reach: Reach)

  /** What becomes of an effect that would go as `o`, if it can succeed at all only when `possible`. */
  function Feasible(o: Outcome, possible: bool): Outcome {
    if o.Done? && !possible then Failed(Nothing) else o
  }

  /** Rendering writes the compose file or leaves it; it is never the file that fails later. */
  function Render(w: World, bind: Bind, o: Outcome): World {
    if o.Done? || o.reach.Fully? then w.(file := Some(bind)) else w
  }

  /** `docker compose up -d`: needs the compose file; creates the volume if missing; mysqld starts with
      `general_log = 1` from its cnf. A failing `up` may have created the volume only, or may leave the
      container running. */
  function Up(w: World, o: Outcome): World {
    if w.file.None? || o == Failed(Nothing) then w
    else
      var made := w.(volume := Some(if w.volume.Some? then w.volume.value else EMPTY_VOLUME));
      if o == Failed(Partly) then made else made.(container := w.file, generalLog := true)
  }

  /** `docker compose down [-v]`: needs the compose file. A failing `down` may have removed nothing,
      the container only, or everything it was asked to. */
  function Down(w: World, removeVolumes: bool, o: Outcome): World {
    if w.file.None? || o == Failed(Nothing) then w
    else w.(container := None,
            volume := if removeVolumes && o != Failed(Partly) then None else w.volume)
  }

  /** The outcomes of a `down -v` that gets as far as the volumes. */
  predicate Removing(o: Outcome) {
    o.Done? || o == Failed(Fully)
  }

  lemma DownRemoves(w: World, removeVolumes: bool, o: Outcome)
    ensures Down(w, removeVolumes, o).volume != w.volume <==>
            w.volume.Some? && w.file.Some? && removeVolumes && Removing(o)
  {
    assert o.Failed? ==> o.reach.Nothing? || o.reach.Partly? || o.reach.Fully?;
  }

  /** Streaming a dump into the sandbox: a failure may leave part of the database behind. */
  function Clone(w: World, dump: Dump, o: Outcome): World {
    if w.volume.None? || o == Failed(Nothing) then w
    else if o.Done? then w.(volume := Some(w.volume.value.(clones := w.volume.value.clones + [dump])))
    else w.(volume := Some(w.volume.value.(dirty := true)))
  }

  function ApplyGrants(w: World, grants: seq<Grant>, o: Outcome): World {
    if w.volume.None? || o == Failed(Nothing) || o == Failed(Partly) then w
    else w.(volume := Some(w.volume.value.(granted := Some(grants))))
  }

  function SetGeneralLog(w: World, on: bool, o: Outcome): World {
    if o.Done? || o.reach.Fully? then w.(generalLog := on) else w
  }

  /** A tunnel that does not come up is terminated before the error is raised. */
  function OpenTunnel(w: World, o: Outcome): World {
    w.(tunnel := o.Done?)
  }

  /** `Tunnel.close` swallows every exception, so a failed close leaves ssh running unnoticed. */
  function CloseTunnel(w: World, o: Outcome): World {
    if o.Done? then w.(tunnel := false) else w
  }

  /** `rmtree(session_dir, ignore_errors=True)`. */
  function RemoveFiles(w: World, o: Outcome): World {
    if o.Done? || o.reach.Fully? then w.(file := None) else w
  }
}
