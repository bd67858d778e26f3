/**
 * POST of `src/app/api/documents/move/route.ts`: the users' bulk move. It
 * checks the identity and the id list, hands over to the same library
 * operation as the administration move, and answers a failure with 500
 * (where the administration route answers 400).
 */
module MoveRoute {
  import opened Common
  import opened Tables
  import opened Store
  import opened AdminDocuments
  import opened DocumentsRoute
  import AdminRoutes

  datatype MoveResponse =
    | Moved(message: string, movedCount: nat)      // 200
    | MoveRefused(status: int, error: string)

  /** The message names the direction: into a folder for a truthy folder id, out of one otherwise. */
  function MoveMessage(n: nat, folderId: Option<string>): string
  {
    if Truthy(folderId) then NatToString(n) + " documento(s) movido(s) a la carpeta"
    else NatToString(n) + " documento(s) movido(s) fuera de la carpeta"
  }

  /**
   * The handler over the parsed body (`Err` when it is not JSON, which the
   * catch-all answers with 500) and the backend's answers to the library calls.
   */
  function MoveDocuments(s: Snapshot, caller: Option<string>, body: Result<MoveBody>, env: MoveEnv)
    : (Snapshot, MoveResponse)
  {
    if !Truthy(caller) then (s, MoveRefused(401, "No autorizado"))
    else if body.Err? then (s, MoveRefused(500, "Error interno del servidor"))
    else if body.value.documentIds.None? || |body.value.documentIds.value| == 0 then
      (s, MoveRefused(400, "Se requiere al menos un ID de documento"))
    else
      var ids := body.value.documentIds.value;
      var (t, r) := MoveState(s, ids, body.value.folderId, caller.value, env);
      if r.Failed? then (t, MoveRefused(500, r.message))
      else (t, Moved(MoveMessage(|ids|, body.value.folderId), |ids|))
  }

  /**
   * A missing, non-array or empty list answers 400 and changes nothing; a
   * success reports `movedCount` equal to the number of ids sent, with the
   * message naming the direction; a library failure answers 500 with its message.
   */
  lemma MoveRouteChecks(s: Snapshot, caller: Option<string>, body: MoveBody, env: MoveEnv)
    requires Truthy(caller)
    ensures var (t, res) := MoveDocuments(s, caller, Ok(body), env);
            && (body.documentIds.None? || body.documentIds == Some([]) ==>
                  t == s && res == MoveRefused(400, "Se requiere al menos un ID de documento"))
            && (body.documentIds.Some? && body.documentIds.value != [] ==>
                  var ids := body.documentIds.value;
                  && t == MoveState(s, ids, body.folderId, caller.value, env).0
                  && (res.Moved? <==> !(Truthy(body.folderId) && env.link.Failed?))
                  && (res.Moved? ==> res.movedCount == |ids|
                                     && res.message == MoveMessage(|ids|, body.folderId))
                  && (res.MoveRefused? ==> res == MoveRefused(500, env.link.message)))
  {
    if body.documentIds.Some? && body.documentIds.value != [] {
      var ids := body.documentIds.value;
      assert MoveState(s, ids, body.folderId, caller.value, env).1.Failed? <==> Truthy(body.folderId) && env.link.Failed?;
    }
  }

  /** The two message forms differ, so the direction can be read back from the message. */
  lemma MoveMessageNamesDirection(n: nat, folderId: Option<string>)
    ensures Truthy(folderId) <==> MoveMessage(n, folderId) == NatToString(n) + " documento(s) movido(s) a la carpeta"
  {
    var digits := NatToString(n);
    var into := " documento(s) movido(s) a la carpeta";
    var outOf := " documento(s) movido(s) fuera de la carpeta";
    assert (digits + into)[|digits| + 24] == into[24] == 'a';
    assert (digits + outOf)[|digits| + 24] == outOf[24] == 'f';
  }

  /**
   * For the same request and backend answers, this route and the
   * administration move leave the same state; on a failure this one answers
   * 500 and the administration one 400.
   */
  lemma MoveStatusDiffersFromAdmin(s: Snapshot, caller: Option<string>, body: MoveBody, env: MoveEnv)
    requires Truthy(caller) && body.documentIds.Some? && body.documentIds.value != []
    requires Truthy(body.folderId) && env.link.Failed?
    ensures MoveDocuments(s, caller, Ok(body), env).0 == AdminRoutes.AdminMove(s, caller, Ok(body), env).0
    ensures MoveDocuments(s, caller, Ok(body), env).1 == MoveRefused(500, env.link.message)
    ensures AdminRoutes.AdminMove(s, caller, Ok(body), env).1.status == 400
  {
  }

  lemma MoveNeedsIdentity(s: Snapshot, caller: Option<string>, body: Result<MoveBody>, env: MoveEnv)
    requires !Truthy(caller)
    ensures MoveDocuments(s, caller, body, env) == (s, MoveRefused(401, "No autorizado"))
  {
  }
}
