/** The cinema table and CinesController's actions over it: list, get by id, create, rename and
    delete. The database is a sequence of rows in store order; FirstOrDefaultAsync(x => x.Id == id)
    is Linq.FirstIndex. */
module Cines {
  import opened Wrappers
  import Linq

  /** Cine.Ubicacion, a System.Drawing.Point: a value pair of integer coordinates. */
  datatype Point = Point(x: int, y: int)

  /** The struct's default value, which a new cinema's location starts as. */
  const Origen := Point(0, 0)

  /** A stored cinema. A cinema created through Post has the default location (0, 0). */
  datatype Cine = Cine(id: int, nombre: string, ubicacion: Point)

  /** What the actions hand out for a cinema: its id and name, never its location. */
  datatype CineDTO = CineDTO(id: int, nombre: string)

  /** The request body of Post and Put. */
  datatype CineCreacionDTO = CineCreacionDTO(nombre: string)

  /** The position of the first cinema with the given id, if any. */
  function IndexOfId(cines: seq<Cine>, id: int): (r: Option<nat>)
    ensures r.None? <==> forall i :: 0 <= i < |cines| ==> cines[i].id != id
    ensures r.Some? ==> r.value < |cines| && cines[r.value].id == id
  {
    Linq.FirstIndex(cines, (c: Cine) => c.id == id)
  }

  /** No two cinemas share an id (Id is the table's key). */
  ghost predicate UniqueIds(cines: seq<Cine>)
  {
    forall i, j :: 0 <= i < j < |cines| ==> cines[i].id != cines[j].id
  }

  /** The controller with the cinema table it works on. `nextId` is the identity value the
      database hands to the next inserted row. */
  class CinesController {
    var cines: seq<Cine>
    var nextId: int

    ghost predicate Valid()
      reads this
    {
      UniqueIds(cines) && forall i :: 0 <= i < |cines| ==> cines[i].id < nextId
    }

    constructor (cines0: seq<Cine>, nextId0: int)
      requires UniqueIds(cines0) && forall i :: 0 <= i < |cines0| ==> cines0[i].id < nextId0
      ensures Valid() && cines == cines0 && nextId == nextId0
    {
      cines := cines0;
      nextId := nextId0;
    }

    /** GET api/cines: one DTO per stored cinema, in store order, with its id and name. */
    method Get() returns (cinesDTO: seq<CineDTO>)
      ensures |cinesDTO| == |cines|
      ensures forall i :: 0 <= i < |cines| ==> cinesDTO[i].id == cines[i].id && cinesDTO[i].nombre == cines[i].nombre
    {
      cinesDTO := [];
      for k := 0 to |cines|
        invariant |cinesDTO| == k
        invariant forall i :: 0 <= i < k ==> cinesDTO[i] == CineDTO(cines[i].id, cines[i].nombre)
      {
        var item := cines[k];
        cinesDTO := cinesDTO + [CineDTO(item.id, item.nombre)];
      }
    }

    /** GET api/cines/{id}: NotFound exactly when no cinema has the id; otherwise that cinema's
        id and name. */
    method GetById(id: int) returns (r: Response<CineDTO>)
      ensures r.NotFound? <==> forall i :: 0 <= i < |cines| ==> cines[i].id != id
      ensures r.Ok? ==> exists i :: 0 <= i < |cines| && cines[i].id == id && r.value == CineDTO(id, cines[i].nombre)
    {
      var k := IndexOfId(cines, id);
      if k.None? {
        return NotFound;
      }
      var cine := cines[k.value];
      r := Ok(CineDTO(cine.id, cine.nombre));
    }

    /** POST api/cines: appends one cinema with the requested name, the next identity value and
        the default location (0, 0); the cinemas already stored are untouched. */
    method Post(dto: CineCreacionDTO) returns (r: Response<()>)
      requires Valid()
      modifies this
      ensures Valid() && r == Ok(())
      ensures cines == old(cines) + [Cine(old(nextId), dto.nombre, Origen)]
      ensures nextId == old(nextId) + 1
    {
      cines := cines + [Cine(nextId, dto.nombre, Origen)];
      nextId := nextId + 1;
      r := Ok(());
    }

    /** PUT api/cines/{id}: NotFound and no change for an unknown id; otherwise only that
        cinema's name changes. */
    method Put(id: int, dto: CineCreacionDTO) returns (r: Response<()>)
      requires Valid()
      modifies this
      ensures Valid() && nextId == old(nextId) && |cines| == |old(cines)|
      ensures r.NotFound? <==> forall i :: 0 <= i < |old(cines)| ==> old(cines)[i].id != id
      ensures r.NotFound? ==> cines == old(cines)
      ensures r.Ok? ==> forall i :: 0 <= i < |cines| ==>
        cines[i] == if old(cines)[i].id == id then old(cines)[i].(nombre := dto.nombre) else old(cines)[i]
    {
      var k := IndexOfId(cines, id);
      if k.None? {
        return NotFound;
      }
      cines := cines[k.value := cines[k.value].(nombre := dto.nombre)];
      r := Ok(());
    }

    /** DELETE api/cines/{id}: NotFound and no change for an unknown id; otherwise exactly that
        cinema is removed, and the rest keep their order. */
    method Delete(id: int) returns (r: Response<()>)
      requires Valid()
      modifies this
      ensures Valid() && nextId == old(nextId)
      ensures r.NotFound? <==> forall i :: 0 <= i < |old(cines)| ==> old(cines)[i].id != id
      ensures r.NotFound? ==> cines == old(cines)
      ensures r.Ok? ==> exists k ::
        0 <= k < |old(cines)| && old(cines)[k].id == id && cines == old(cines)[..k] + old(cines)[k + 1..]
      ensures r.Ok? ==> forall i :: 0 <= i < |cines| ==> cines[i].id != id
    {
      var k := IndexOfId(cines, id);
      if k.None? {
        return NotFound;
      }
      cines := cines[..k.value] + cines[k.value + 1..];
      r := Ok(());
    }
  }
}
