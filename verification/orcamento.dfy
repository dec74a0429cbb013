/** The in-memory quote service: quotes get the ids 1, 2, 3, ... in
    creation order and are sent on creation. */
module Orcamento {
  import opened Common
  import opened Query

  datatype StatusOrcamento = Pendente | Enviado | Aprovado | Rejeitado

  /** One quote; `valor` is a decimal amount. */
  datatype Orcamento = Orcamento(
    id: int, ordemServicoId: int, valor: real, emailCliente: string,
    status: StatusOrcamento, criadoEm: Instant)

  /** The match `ListarPorOrdem` uses. */
  function ForOrder(ordemServicoId: int): Orcamento -> bool {
    (o: Orcamento) => o.ordemServicoId == ordemServicoId
  }

  /** The k-th quote (from 0) has id k + 1. */
  predicate Numbered(quotes: seq<Orcamento>) {
    forall k :: 0 <= k < |quotes| ==> quotes[k].id == k + 1
  }

  class OrcamentoService {
    var orcamentos: seq<Orcamento>

    ghost predicate Valid()
      reads this
    {
      Numbered(orcamentos)
    }

    constructor ()
      ensures Valid() && orcamentos == []
    {
      orcamentos := [];
    }

    /** Creates and sends a quote; the e-mail itself is not sent. */
    method GerarEEnviarOrcamento(ordemServicoId: int, valor: real, emailCliente: string, now: Instant)
      returns (orcamento: Orcamento)
      requires Valid()
      modifies this
      ensures Valid()
      ensures orcamento.id == |old(orcamentos)| + 1 && orcamento.status == Enviado
      ensures orcamento.ordemServicoId == ordemServicoId && orcamento.valor == valor
      ensures orcamento.emailCliente == emailCliente && orcamento.criadoEm == now
      ensures orcamentos == old(orcamentos) + [orcamento]
    {
      orcamento := Orcamento(|orcamentos| + 1, ordemServicoId, valor, emailCliente, Enviado, now);
      orcamentos := orcamentos + [orcamento];
    }

    /** The quotes of one order, in creation order. */
    function ListarPorOrdem(ordemServicoId: int): (r: seq<Orcamento>)
      reads this
      ensures |r| <= |orcamentos|
      ensures forall o :: o in r <==> o in orcamentos && o.ordemServicoId == ordemServicoId
    {
      Where(orcamentos, ForOrder(ordemServicoId))
    }
  }

  /** Appending the quote with the next id keeps the numbering; so no two
      quotes ever share an id. */
  lemma NextIdKeepsNumbering(quotes: seq<Orcamento>, o: Orcamento)
    requires Numbered(quotes) && o.id == |quotes| + 1
    ensures Numbered(quotes + [o])
    ensures forall j, k :: 0 <= j < k < |quotes + [o]| ==> (quotes + [o])[j].id != (quotes + [o])[k].id
  {
  }
}
