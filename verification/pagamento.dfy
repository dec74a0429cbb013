/** The in-memory payment service: payments get the ids 1, 2, 3, ... in
    registration order, are confirmed on registration and are looked up by
    id. */
module Pagamento {
  import opened Common
  import opened Query

  datatype StatusPagamento = Pendente | Confirmado | Falhou

  /** One payment; `valor` is a decimal amount. */
  datatype Pagamento = Pagamento(
    id: int, ordemServicoId: int, valor: real, metodo: string,
    status: StatusPagamento, criadoEm: Instant)

  /** The match `ObterPagamento` uses. */
  function WithId(pagamentoId: int): Pagamento -> bool {
    (p: Pagamento) => p.id == pagamentoId
  }

  /** The k-th payment (from 0) has id k + 1. */
  predicate Numbered(payments: seq<Pagamento>) {
    forall k :: 0 <= k < |payments| ==> payments[k].id == k + 1
  }

  class PagamentoService {
    var pagamentos: seq<Pagamento>

    ghost predicate Valid()
      reads this
    {
      Numbered(pagamentos)
    }

    constructor ()
      ensures Valid() && pagamentos == []
    {
      pagamentos := [];
    }

    method RegistrarPagamento(ordemServicoId: int, valor: real, metodo: string, now: Instant)
      returns (pagamento: Pagamento)
      requires Valid()
      modifies this
      ensures Valid()
      ensures pagamento.id == |old(pagamentos)| + 1 && pagamento.status == Confirmado
      ensures pagamento.ordemServicoId == ordemServicoId && pagamento.valor == valor
      ensures pagamento.metodo == metodo && pagamento.criadoEm == now
      ensures pagamentos == old(pagamentos) + [pagamento]
    {
      pagamento := Pagamento(|pagamentos| + 1, ordemServicoId, valor, metodo, Confirmado, now);
      pagamentos := pagamentos + [pagamento];
    }

    /** The first payment with that id, or none; with the ids numbered,
        id k names the k-th payment. */
    function ObterPagamento(pagamentoId: int): (r: Option<Pagamento>)
      reads this
      ensures r.None? <==> forall k :: 0 <= k < |pagamentos| ==> pagamentos[k].id != pagamentoId
      ensures r.Some? ==> r.value in pagamentos && r.value.id == pagamentoId
      ensures Numbered(pagamentos) && 1 <= pagamentoId <= |pagamentos| ==> r == Some(pagamentos[pagamentoId - 1])
    {
      if Numbered(pagamentos) then LookupById(pagamentos, pagamentoId); FirstOrDefault(pagamentos, WithId(pagamentoId))
      else FirstOrDefault(pagamentos, WithId(pagamentoId))
    }
  }

  /** With the ids numbered, the lookup of id k finds the k-th payment, and
      finds nothing for an id that was never issued. */
  lemma LookupById(payments: seq<Pagamento>, pagamentoId: int)
    requires Numbered(payments)
    ensures var r := FirstOrDefault(payments, WithId(pagamentoId));
      && (1 <= pagamentoId <= |payments| ==> r == Some(payments[pagamentoId - 1]))
      && (pagamentoId < 1 || pagamentoId > |payments| ==> r.None?)
  {
    if 1 <= pagamentoId <= |payments| {
      FirstIndexIs(payments, WithId(pagamentoId), pagamentoId - 1);
    }
  }

  /** Registering a payment and then looking up its id returns it. */
  lemma RegisterThenFind(payments: seq<Pagamento>, p: Pagamento)
    requires Numbered(payments) && p.id == |payments| + 1
    ensures Numbered(payments + [p])
    ensures FirstOrDefault(payments + [p], WithId(p.id)) == Some(p)
  {
    LookupById(payments + [p], p.id);
  }
}
