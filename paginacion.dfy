/** PaginacionDTO: the page number and the page size a client asks for when it lists movies. */
module Paginacion {
  import opened Wrappers

  /** cantidadMaximaRecordsPorPagina: the largest page size the setter lets through. */
  const CantidadMaximaRecordsPorPagina: int := 50

  /** The value the RecordsPorPagina setter stores for a requested size: a size above the
      maximum becomes the maximum; any other size, zero and negative ones included, is kept. */
  function Limitar(value: int): (r: int)
    ensures r <= CantidadMaximaRecordsPorPagina
    ensures value <= CantidadMaximaRecordsPorPagina ==> r == value
    ensures value > CantidadMaximaRecordsPorPagina ==> r == CantidadMaximaRecordsPorPagina
  {
    if value > CantidadMaximaRecordsPorPagina then CantidadMaximaRecordsPorPagina else value
  }

  /** Storing a size that was read back from the property stores it unchanged. */
  lemma LimitarIdempotente(value: int)
    ensures Limitar(Limitar(value)) == Limitar(value)
  {
  }

  /** The DTO with a backing field for RecordsPorPagina. The getter returns the field and the
      setter stores the clamped size in it; that is what the accessors are meant to do. */
  class PaginacionDTO {
    var pagina: int
    var recordsPorPagina: int

    /** Whatever was last stored went through the clamp. */
    ghost predicate Valid()
      reads this
    {
      recordsPorPagina <= CantidadMaximaRecordsPorPagina
    }

    /** A fresh object is on page 1. RecordsPorPagina has no initializer, so its field holds
        the default 0. */
    constructor ()
      ensures Valid()
      ensures pagina == 1 && recordsPorPagina == 0
    {
      pagina := 1;
      recordsPorPagina := 0;
    }

    /** The Pagina setter: an auto-property, so any value is kept. */
    method SetPagina(value: int)
      modifies this
      ensures pagina == value && recordsPorPagina == old(recordsPorPagina)
    {
      pagina := value;
    }

    /** The RecordsPorPagina getter: the last size stored, never above the maximum. */
    function RecordsPorPagina(): (r: int)
      reads this
      requires Valid()
      ensures r <= CantidadMaximaRecordsPorPagina
    {
      recordsPorPagina
    }

    /** The RecordsPorPagina setter: stores the requested size, clamped to the maximum. */
    method SetRecordsPorPagina(value: int)
      modifies this
      ensures Valid()
      ensures recordsPorPagina == Limitar(value)
      ensures pagina == old(pagina)
    {
      recordsPorPagina := Limitar(value);
    }
  }

  /** Reading RecordsPorPagina and storing what was read leaves the stored size as it was. */
  method ReadBackUnchanged(dto: PaginacionDTO)
    requires dto.Valid()
    modifies dto
    ensures dto.Valid() && dto.recordsPorPagina == old(dto.recordsPorPagina) && dto.pagina == old(dto.pagina)
  {
    var leido := dto.RecordsPorPagina();
    dto.SetRecordsPorPagina(leido);
  }

  /** The getter as the source writes it: its body reads RecordsPorPagina again, so every call
      makes the same call. `depth` is the number of nested calls the stack has room for; None
      is the stack overflow that ends the chain. */
  function GetterAsWritten(depth: nat): (r: Option<int>)
  {
    if depth == 0 then None else GetterAsWritten(depth - 1)
  }

  /** The setter as the source writes it: its body assigns RecordsPorPagina, which calls the
      setter again with the clamped value. None is the stack overflow. */
  function SetterAsWritten(value: int, depth: nat): (r: Option<int>)
  {
    if depth == 0 then None else SetterAsWritten(Limitar(value), depth - 1)
  }

  /** However deep the stack, the getter as written never returns a value. */
  lemma {:induction false} GetterAsWrittenNeverReturns(depth: nat)
    ensures GetterAsWritten(depth) == None
  {
    if depth > 0 {
      GetterAsWrittenNeverReturns(depth - 1);
    }
  }

  /** However deep the stack, the setter as written never stores anything, not even for a
      request of 1000 records, which the clamp should turn into 50. */
  lemma {:induction false} SetterAsWrittenNeverReturns(value: int, depth: nat)
    ensures SetterAsWritten(value, depth) == None
  {
    if depth > 0 {
      SetterAsWrittenNeverReturns(Limitar(value), depth - 1);
    }
  }

  /** With the backing field, a request of 1000 records stores 50 and reads back as 50. */
  method ClampExample() returns (leido: int)
    ensures leido == 50
  {
    var dto := new PaginacionDTO();
    dto.SetRecordsPorPagina(1000);
    leido := dto.RecordsPorPagina();
  }
}
