/** The in-memory, append-only log of status updates of service orders,
    with a per-order listing that keeps the order of the log. */
module AtualizacaoStatusOs {
  import opened Common
  import opened Query

  /** One logged update. The database key is not modelled. */
  datatype AtualizacaoStatusOs = AtualizacaoStatusOs(ordemServicoId: int, novoStatus: string, atualizadoEm: Instant)

  /** The match `ListarPorOrdem` uses. */
  function ForOrder(ordemServicoId: int): AtualizacaoStatusOs -> bool {
    (a: AtualizacaoStatusOs) => a.ordemServicoId == ordemServicoId
  }

  class AtualizacaoStatusOsService {
    var atualizacoes: seq<AtualizacaoStatusOs>

    constructor ()
      ensures atualizacoes == []
    {
      atualizacoes := [];
    }

    /** Records the new status of an order at time `now`, whatever the
        status text (empty included), and returns the record. */
    method AtualizarStatus(ordemServicoId: int, novoStatus: string, now: Instant)
      returns (atualizacao: AtualizacaoStatusOs)
      modifies this
      ensures atualizacao.ordemServicoId == ordemServicoId && atualizacao.novoStatus == novoStatus
      ensures atualizacao.atualizadoEm == now
      ensures atualizacoes == old(atualizacoes) + [atualizacao]
    {
      atualizacao := AtualizacaoStatusOs(ordemServicoId, novoStatus, now);
      atualizacoes := atualizacoes + [atualizacao];
    }

    /** The updates of one order, in the order they were logged. */
    function ListarPorOrdem(ordemServicoId: int): (r: seq<AtualizacaoStatusOs>)
      reads this
      ensures |r| <= |atualizacoes|
      ensures forall a :: a in r <==> a in atualizacoes && a.ordemServicoId == ordemServicoId
    {
      Where(atualizacoes, ForOrder(ordemServicoId))
    }
  }

  /** The listing holds exactly the logged updates of that order, and is
      empty exactly when the order has none. */
  lemma ListsExactlyTheOrder(log: seq<AtualizacaoStatusOs>, ordemServicoId: int)
    ensures forall a :: a in Where(log, ForOrder(ordemServicoId)) <==> a in log && a.ordemServicoId == ordemServicoId
    ensures Where(log, ForOrder(ordemServicoId)) == [] <==> forall k :: 0 <= k < |log| ==> log[k].ordemServicoId != ordemServicoId
  {
    var r := Where(log, ForOrder(ordemServicoId));
    if r == [] {
      forall k | 0 <= k < |log|
        ensures log[k].ordemServicoId != ordemServicoId
      {
        assert log[k] in log;
      }
    } else {
      assert r[0] in r;
    }
  }

  /** A new update of an order goes to the end of that order's listing and
      leaves every other order's listing as it was. */
  lemma UpdateAppendsToListing(log: seq<AtualizacaoStatusOs>, a: AtualizacaoStatusOs, ordemServicoId: int)
    ensures Where(log + [a], ForOrder(ordemServicoId))
      == if a.ordemServicoId == ordemServicoId then Where(log, ForOrder(ordemServicoId)) + [a]
         else Where(log, ForOrder(ordemServicoId))
  {
    WhereSnoc(log, a, ForOrder(ordemServicoId));
  }
}
