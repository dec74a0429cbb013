/** The execution record of a service order and the service that creates,
    looks up and updates those records. Every lookup and update acts on the
    FIRST record with the given service-order id; an id without a record is
    a silent no-op. */
module ExecucaoOs {
  import opened Common
  import opened Query

  /** One execution record. The database key is not modelled; the clock
      readings are `Instant`s. */
  datatype ExecucaoOs = ExecucaoOs(
    ordemServicoId: int,
    statusAtual: string,
    inicioExecucao: Option<Instant>,
    fimExecucao: Option<Instant>,
    diagnostico: Option<string>,
    reparo: Option<string>,
    finalizado: bool)

  const EmDiagnostico := "Em Diagnóstico"
  const Finalizado := "Finalizado"

  /** The record `CriarExecucao` adds. */
  function NovaExecucao(ordemServicoId: int): (r: ExecucaoOs)
    ensures r.ordemServicoId == ordemServicoId && r.statusAtual == "Fila" && !r.finalizado
    ensures r.inicioExecucao.None? && r.fimExecucao.None? && r.diagnostico.None? && r.reparo.None?
  {
    ExecucaoOs(ordemServicoId, "Fila", None, None, None, None, false)
  }

  /** The match every lookup uses. */
  function ForOrder(ordemServicoId: int): ExecucaoOs -> bool {
    (e: ExecucaoOs) => e.ordemServicoId == ordemServicoId
  }

  /** `ObterExecucao`: the first record for the order, or none. */
  function Obter(rows: seq<ExecucaoOs>, ordemServicoId: int): (r: Option<ExecucaoOs>)
    ensures r.None? <==> forall k :: 0 <= k < |rows| ==> rows[k].ordemServicoId != ordemServicoId
    ensures r.Some? ==> exists i :: && 0 <= i < |rows| && r.value == rows[i]
                                    && rows[i].ordemServicoId == ordemServicoId
                                    && forall k :: 0 <= k < i ==> rows[k].ordemServicoId != ordemServicoId
  {
    FirstOrDefault(rows, ForOrder(ordemServicoId))
  }

  /** A record after a status change at time `now`. */
  function ComStatus(e: ExecucaoOs, novoStatus: string, now: Instant): ExecucaoOs {
    var e1 := e.(statusAtual := novoStatus);
    var e2 := if novoStatus == EmDiagnostico then e1.(inicioExecucao := Some(now)) else e1;
    if novoStatus == Finalizado then e2.(fimExecucao := Some(now), finalizado := true) else e2
  }

  /** Which update an operation applies to the first matching record. */
  datatype Change =
    | Status(novoStatus: string, now: Instant)
    | Diagnostico(diagnostico: string)
    | Reparo(reparo: string)

  function Apply(e: ExecucaoOs, c: Change): ExecucaoOs {
    match c
    case Status(novoStatus, now) => ComStatus(e, novoStatus, now)
    case Diagnostico(d) => e.(diagnostico := Some(d))
    case Reparo(r) => e.(reparo := Some(r))
  }

  /** The list after an update for an order: the first record for the order
      is changed, or nothing when there is none. */
  function Atualizado(rows: seq<ExecucaoOs>, ordemServicoId: int, c: Change): (r: seq<ExecucaoOs>)
    ensures |r| == |rows|
  {
    var i := FirstIndex(rows, ForOrder(ordemServicoId));
    if i.None? then rows else rows[i.value := Apply(rows[i.value], c)]
  }

  class ExecucaoOsService {
    var execucoes: seq<ExecucaoOs>

    constructor ()
      ensures execucoes == []
    {
      execucoes := [];
    }

    method CriarExecucao(ordemServicoId: int) returns (execucao: ExecucaoOs)
      modifies this
      ensures execucao == NovaExecucao(ordemServicoId)
      ensures execucoes == old(execucoes) + [execucao]
    {
      execucao := NovaExecucao(ordemServicoId);
      execucoes := execucoes + [execucao];
    }

    method ObterExecucao(ordemServicoId: int) returns (execucao: Option<ExecucaoOs>)
      ensures execucao == Obter(execucoes, ordemServicoId)
      ensures execucao.None? <==> forall k :: 0 <= k < |execucoes| ==> execucoes[k].ordemServicoId != ordemServicoId
      ensures execucao.Some? ==> exists i :: && 0 <= i < |execucoes| && execucao.value == execucoes[i]
                                             && execucoes[i].ordemServicoId == ordemServicoId
                                             && forall k :: 0 <= k < i ==> execucoes[k].ordemServicoId != ordemServicoId
    {
      execucao := FirstOrDefault(execucoes, ForOrder(ordemServicoId));
    }

    method AtualizarStatus(ordemServicoId: int, novoStatus: string, now: Instant)
      modifies this
      ensures execucoes == Atualizado(old(execucoes), ordemServicoId, Status(novoStatus, now))
    {
      var i := FirstIndex(execucoes, ForOrder(ordemServicoId));
      if i.Some? {
        var e := execucoes[i.value].(statusAtual := novoStatus);
        if novoStatus == EmDiagnostico {
          e := e.(inicioExecucao := Some(now));
        }
        if novoStatus == Finalizado {
          e := e.(fimExecucao := Some(now), finalizado := true);
        }
        execucoes := execucoes[i.value := e];
      }
    }

    method AtualizarDiagnostico(ordemServicoId: int, diagnostico: string)
      modifies this
      ensures execucoes == Atualizado(old(execucoes), ordemServicoId, Diagnostico(diagnostico))
    {
      var i := FirstIndex(execucoes, ForOrder(ordemServicoId));
      if i.Some? {
        execucoes := execucoes[i.value := execucoes[i.value].(diagnostico := Some(diagnostico))];
      }
    }

    method AtualizarReparo(ordemServicoId: int, reparo: string)
      modifies this
      ensures execucoes == Atualizado(old(execucoes), ordemServicoId, Reparo(reparo))
    {
      var i := FirstIndex(execucoes, ForOrder(ordemServicoId));
      if i.Some? {
        execucoes := execucoes[i.value := execucoes[i.value].(reparo := Some(reparo))];
      }
    }
  }

  /** After creating an execution, the lookup finds it, unless an earlier
      record for the same order exists, which the lookup keeps finding; the
      count grows by one and earlier records are kept. */
  lemma CreateThenFind(rows: seq<ExecucaoOs>, ordemServicoId: int)
    ensures var after := rows + [NovaExecucao(ordemServicoId)];
      && |after| == |rows| + 1 && after[..|rows|] == rows
      && Obter(after, ordemServicoId)
         == if Obter(rows, ordemServicoId).Some? then Obter(rows, ordemServicoId) else Some(NovaExecucao(ordemServicoId))
  {
    var after := rows + [NovaExecucao(ordemServicoId)];
    FirstAfterAppend(rows, NovaExecucao(ordemServicoId), ForOrder(ordemServicoId));
    assert after[..|rows|] == rows;
  }

  /** The lookup finds nothing exactly when no record has the order id. */
  lemma FindsNothing(rows: seq<ExecucaoOs>, ordemServicoId: int)
    ensures Obter(rows, ordemServicoId).None?
      <==> forall k :: 0 <= k < |rows| ==> rows[k].ordemServicoId != ordemServicoId
  {
  }

  /** An update for an order without a record changes nothing. */
  lemma UnknownIdNoChange(rows: seq<ExecucaoOs>, ordemServicoId: int, c: Change)
    requires forall k :: 0 <= k < |rows| ==> rows[k].ordemServicoId != ordemServicoId
    ensures Atualizado(rows, ordemServicoId, c) == rows
  {
  }

  /** An update changes the first record for the order and no other. */
  lemma OnlyFirstMatchChanges(rows: seq<ExecucaoOs>, ordemServicoId: int, c: Change, i: nat)
    requires i < |rows| && rows[i].ordemServicoId == ordemServicoId
    requires forall k :: 0 <= k < i ==> rows[k].ordemServicoId != ordemServicoId
    ensures var r := Atualizado(rows, ordemServicoId, c);
      && r[i] == Apply(rows[i], c)
      && forall k :: 0 <= k < |rows| && k != i ==> r[k] == rows[k]
  {
    FirstIndexIs(rows, ForOrder(ordemServicoId), i);
  }

  /** A status change sets the status; "Em Diagnóstico" also stamps the
      start, "Finalizado" also stamps the end and sets the flag; every other
      field, and both stamps for any other status, keep their value. */
  lemma StatusTimestamps(e: ExecucaoOs, novoStatus: string, now: Instant)
    ensures var r := Apply(e, Status(novoStatus, now));
      && r.statusAtual == novoStatus
      && r.ordemServicoId == e.ordemServicoId && r.diagnostico == e.diagnostico && r.reparo == e.reparo
      && (r.inicioExecucao == if novoStatus == "Em Diagnóstico" then Some(now) else e.inicioExecucao)
      && (r.fimExecucao == if novoStatus == "Finalizado" then Some(now) else e.fimExecucao)
      && (r.finalizado == (novoStatus == "Finalizado" || e.finalizado))
  {
  }

  /** The diagnosis and repair updates change their own field of the first
      record for the order, and nothing else in the list. */
  lemma NotesChangeOwnField(rows: seq<ExecucaoOs>, ordemServicoId: int, text: string, i: nat)
    requires i < |rows| && rows[i].ordemServicoId == ordemServicoId
    requires forall k :: 0 <= k < i ==> rows[k].ordemServicoId != ordemServicoId
    ensures Atualizado(rows, ordemServicoId, Diagnostico(text)) == rows[i := rows[i].(diagnostico := Some(text))]
    ensures Atualizado(rows, ordemServicoId, Reparo(text)) == rows[i := rows[i].(reparo := Some(text))]
  {
    FirstIndexIs(rows, ForOrder(ordemServicoId), i);
  }

  /** After an update, the lookup for that order returns the updated record. */
  lemma FindAfterUpdate(rows: seq<ExecucaoOs>, ordemServicoId: int, c: Change)
    requires Obter(rows, ordemServicoId).Some?
    ensures Obter(Atualizado(rows, ordemServicoId, c), ordemServicoId)
      == Some(Apply(Obter(rows, ordemServicoId).value, c))
  {
    var i := FirstIndex(rows, ForOrder(ordemServicoId)).value;
    var r := Atualizado(rows, ordemServicoId, c);
    assert forall k :: 0 <= k < i ==> r[k] == rows[k];
    FirstIndexIs(r, ForOrder(ordemServicoId), i);
  }
}
