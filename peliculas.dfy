/** The hand-written logic of PeliculasController: the actor-order writer, the optional filters of
    Filtrar, the landing-page selection, the hand-built actor and cinema lists of the detail view,
    the viewer's own rating, the genre complement of the edit view, and the not-found branches of
    Get, PutGet, Put and Delete. The store is a set of sequences held by the controller; "today"
    is a parameter; dates are day numbers. */
module Peliculas {
  import opened Wrappers
  import Linq
  import Cines

  datatype Actor = Actor(id: int, nombre: string, biografia: string, fechaNacimiento: int, foto: string)

  datatype Genero = Genero(id: int, nombre: string)

  /** A movie-actor join row; `actor` is the navigation property that ThenInclude loads. */
  datatype PeliculasActores = PeliculasActores(actorId: int, peliculaId: int, orden: int, actor: Actor)

  datatype PeliculasGeneros = PeliculasGeneros(generoId: int, peliculaId: int)

  /** A movie-cinema join row; `cine` is the navigation property that ThenInclude loads. */
  datatype PeliculasCines = PeliculasCines(cineId: int, peliculaId: int, cine: Cines.Cine)

  /** A stored movie with its join rows. */
  datatype Pelicula = Pelicula(
    id: int,
    titulo: string,
    enCines: bool,
    fechaLanzamiento: int,
    peliculasActores: seq<PeliculasActores>,
    peliculasGeneros: seq<PeliculasGeneros>,
    peliculasCines: seq<PeliculasCines>)

  /** One user's score for one movie. */
  datatype Rating = Rating(usuarioId: string, peliculaId: int, puntuacion: int)

  datatype ActorDTO = ActorDTO(id: int, nombre: string, biografia: string, fechaNacimiento: int, foto: string)

  datatype GeneroDTO = GeneroDTO(id: int, nombre: string)

  /** The fields of the detail view that the controller fills in by hand: the average score, the
      viewer's own score and the actor and cinema lists. */
  datatype PeliculaDTO = PeliculaDTO(
    promedioVoto: real,
    votoUsuario: int,
    actores: seq<ActorDTO>,
    cines: seq<Cines.CineDTO>)

  /** The query of GET api/peliculas/filtrar, without its paging part. A null Titulo is None. */
  datatype PeliculasFiltrarDTO = PeliculasFiltrarDTO(
    titulo: Option<string>,
    generoId: int,
    enCines: bool,
    proximosEstrenos: bool)

  /** The landing page, before the movies are mapped to DTOs. */
  datatype LandingPageDTO = LandingPageDTO(proximosEstrenos: seq<Pelicula>, enCines: seq<Pelicula>)

  /** The edit view of GET api/peliculas/PutGet/{id}. */
  datatype PeliculasPutGetDTO = PeliculasPutGetDTO(
    pelicula: PeliculaDTO,
    generosSeleccionados: seq<GeneroDTO>,
    generosNoSeleccionados: seq<Genero>,
    cinesSeleccionados: seq<Cines.CineDTO>)

  /* ---------------------------------------------------------------------------------------
     Actor order
     --------------------------------------------------------------------------------------- */

  /** The join rows with their Orden rewritten to consecutive numbers from `desde` on. */
  function ConOrdenDesde(rows: seq<PeliculasActores>, desde: int): (r: seq<PeliculasActores>)
    decreases |rows|
  {
    if rows == [] then [] else [rows[0].(orden := desde)] + ConOrdenDesde(rows[1..], desde + 1)
  }

  /** The join rows as EscribirOrdenActores leaves them. */
  function ConOrden(rows: seq<PeliculasActores>): seq<PeliculasActores>
  {
    ConOrdenDesde(rows, 0)
  }

  /** Every row's Orden is its position in the list. */
  predicate OrdenEscrito(rows: seq<PeliculasActores>)
  {
    forall i :: 0 <= i < |rows| ==> rows[i].orden == i
  }

  lemma {:induction false} ConOrdenDesdeAt(rows: seq<PeliculasActores>, desde: int, i: int)
    requires 0 <= i < |rows|
    ensures |ConOrdenDesde(rows, desde)| == |rows|
    ensures ConOrdenDesde(rows, desde)[i] == rows[i].(orden := desde + i)
  {
    if i == 0 {
      ConOrdenLength(rows[1..], desde + 1);
    } else {
      ConOrdenDesdeAt(rows[1..], desde + 1, i - 1);
    }
  }

  lemma {:induction false} ConOrdenLength(rows: seq<PeliculasActores>, desde: int)
    ensures |ConOrdenDesde(rows, desde)| == |rows|
  {
    if rows != [] {
      ConOrdenLength(rows[1..], desde + 1);
    }
  }

  /** After the rewrite the list has the same length, row i has Orden i, and the row keeps its
      ActorId, PeliculaId and actor. */
  lemma ConOrdenAt(rows: seq<PeliculasActores>)
    ensures |ConOrden(rows)| == |rows|
    ensures forall i :: 0 <= i < |rows| ==> ConOrden(rows)[i] == rows[i].(orden := i)
    ensures OrdenEscrito(ConOrden(rows))
  {
    ConOrdenLength(rows, 0);
    forall i | 0 <= i < |rows|
      ensures ConOrden(rows)[i] == rows[i].(orden := i)
    {
      ConOrdenDesdeAt(rows, 0, i);
    }
  }

  /** Rewriting a list that is already numbered by position changes nothing; in particular a
      second rewrite is a no-op. */
  lemma ConOrdenIdempotent(rows: seq<PeliculasActores>)
    ensures OrdenEscrito(rows) ==> ConOrden(rows) == rows
    ensures ConOrden(ConOrden(rows)) == ConOrden(rows)
  {
    ConOrdenAt(rows);
    ConOrdenAt(ConOrden(rows));
  }

  /** EscribirOrdenActores: sets each join row's Orden to its index in the movie's
      PeliculasActores list, in place. A null list is left alone. */
  method EscribirOrdenActores(actores: array?<PeliculasActores>)
    modifies actores
    ensures actores != null ==> actores[..] == ConOrden(old(actores[..]))
  {
    if actores != null {
      for i := 0 to actores.Length
        invariant forall j :: 0 <= j < i ==> actores[j] == old(actores[j]).(orden := j)
        invariant forall j :: i <= j < actores.Length ==> actores[j] == old(actores[j])
      {
        actores[i] := actores[i].(orden := i);
      }
      ConOrdenAt(old(actores[..]));
    }
  }

  /* ---------------------------------------------------------------------------------------
     Filtrar
     --------------------------------------------------------------------------------------- */

  /** `buscado` occurs in `texto` starting at position i. */
  predicate OccursAt(texto: string, buscado: string, i: int)
  {
    0 <= i && i + |buscado| <= |texto| && texto[i..i + |buscado|] == buscado
  }

  /** String.Contains with ordinal comparison: `buscado` occurs somewhere in `texto` as a
      contiguous piece. */
  function Contains(texto: string, buscado: string): (r: bool)
    decreases |texto|
    ensures r <==> exists i :: OccursAt(texto, buscado, i)
  {
    if |buscado| > |texto| then false
    else if texto[..|buscado|] == buscado then
      assert OccursAt(texto, buscado, 0);
      true
    else
      var rest := Contains(texto[1..], buscado);
      assert forall i :: OccursAt(texto[1..], buscado, i) ==> OccursAt(texto, buscado, i + 1) by {
        forall i | OccursAt(texto[1..], buscado, i) ensures OccursAt(texto, buscado, i + 1) {
          assert texto[1..][i..i + |buscado|] == texto[i + 1..i + 1 + |buscado|];
        }
      }
      assert forall i :: OccursAt(texto, buscado, i) ==> i >= 1 && OccursAt(texto[1..], buscado, i - 1) by {
        forall i | OccursAt(texto, buscado, i) ensures i >= 1 && OccursAt(texto[1..], buscado, i - 1) {
          assert texto[1..][i - 1..i - 1 + |buscado|] == texto[i..i + |buscado|];
        }
      }
      rest
  }

  /** !string.IsNullOrEmpty(Titulo). */
  predicate TieneTitulo(f: PeliculasFiltrarDTO)
  {
    f.titulo.Some? && f.titulo.value != []
  }

  /** The movie has a genre join row for the genre. */
  predicate TieneGenero(p: Pelicula, generoId: int)
  {
    exists j :: 0 <= j < |p.peliculasGeneros| && p.peliculasGeneros[j].generoId == generoId
  }

  /** The four Where clauses Filtrar can add. */
  function PorTitulo(titulo: string): Pelicula -> bool
  {
    (p: Pelicula) => Contains(p.titulo, titulo)
  }

  function EnCartelera(): Pelicula -> bool
  {
    (p: Pelicula) => p.enCines
  }

  function EstrenoDespuesDe(hoy: int): Pelicula -> bool
  {
    (p: Pelicula) => p.fechaLanzamiento > hoy
  }

  function ConGenero(generoId: int): Pelicula -> bool
  {
    (p: Pelicula) => TieneGenero(p, generoId)
  }

  /** A movie passes the filter when it meets every predicate the query switches on. */
  predicate Cumple(p: Pelicula, f: PeliculasFiltrarDTO, hoy: int)
  {
    && (TieneTitulo(f) ==> Contains(p.titulo, f.titulo.value))
    && (f.enCines ==> p.enCines)
    && (f.proximosEstrenos ==> p.fechaLanzamiento > hoy)
    && (f.generoId != 0 ==> TieneGenero(p, f.generoId))
  }

  /** The query is inactive: no title, both flags off and genre 0. */
  predicate SinFiltros(f: PeliculasFiltrarDTO)
  {
    !TieneTitulo(f) && !f.enCines && !f.proximosEstrenos && f.generoId == 0
  }

  /** Filtrar's query before paging: starting from all movies, each active part of the request
      adds one Where clause. */
  function Filtrar(peliculas: seq<Pelicula>, f: PeliculasFiltrarDTO, hoy: int): (r: seq<Pelicula>)
    ensures forall i :: 0 <= i < |r| ==> Cumple(r[i], f, hoy) && r[i] in peliculas
  {
    var q1 := if TieneTitulo(f) then Linq.Where(peliculas, PorTitulo(f.titulo.value)) else peliculas;
    var q2 := if f.enCines then Linq.Where(q1, EnCartelera()) else q1;
    var q3 := if f.proximosEstrenos then Linq.Where(q2, EstrenoDespuesDe(hoy)) else q2;
    if f.generoId != 0 then Linq.Where(q3, ConGenero(f.generoId)) else q3
  }

  /** Adding a Where clause only when it is active, to a query equal to Where(p), gives the
      Where of p and the clause. */
  lemma WhereIf(s: seq<Pelicula>, active: bool, p: Pelicula -> bool, c: Pelicula -> bool, pc: Pelicula -> bool)
    requires forall x :: pc(x) == (p(x) && (active ==> c(x)))
    ensures (if active then Linq.Where(Linq.Where(s, p), c) else Linq.Where(s, p)) == Linq.Where(s, pc)
  {
    if active {
      Linq.WhereWhere(s, p, c, pc);
    } else {
      WhereSame(s, p, pc);
    }
  }

  lemma {:induction false} WhereSame(s: seq<Pelicula>, p: Pelicula -> bool, q: Pelicula -> bool)
    requires forall x :: p(x) == q(x)
    ensures Linq.Where(s, p) == Linq.Where(s, q)
  {
    if s != [] {
      WhereSame(s[1..], p, q);
    }
  }

  /** The chain of optional Where clauses keeps exactly what one Where on their conjunction keeps. */
  lemma FiltrarIsConjunction(peliculas: seq<Pelicula>, f: PeliculasFiltrarDTO, hoy: int)
    ensures Filtrar(peliculas, f, hoy) == Linq.Where(peliculas, (p: Pelicula) => Cumple(p, f, hoy))
  {
    var all := (p: Pelicula) => true;
    var titulo := if TieneTitulo(f) then f.titulo.value else [];
    var p1 := (p: Pelicula) => TieneTitulo(f) ==> Contains(p.titulo, titulo);
    var p2 := (p: Pelicula) => p1(p) && (f.enCines ==> p.enCines);
    var p3 := (p: Pelicula) => p2(p) && (f.proximosEstrenos ==> p.fechaLanzamiento > hoy);
    var p4 := (p: Pelicula) => Cumple(p, f, hoy);
    Linq.WhereKeepsAll(peliculas, all);
    WhereIf(peliculas, TieneTitulo(f), all, PorTitulo(titulo), p1);
    WhereIf(peliculas, f.enCines, p1, EnCartelera(), p2);
    WhereIf(peliculas, f.proximosEstrenos, p2, EstrenoDespuesDe(hoy), p3);
    WhereIf(peliculas, f.generoId != 0, p3, ConGenero(f.generoId), p4);
  }

  /** Every movie Filtrar keeps meets each active predicate, every stored movie that meets them
      all is kept (as often as it is stored), and the result keeps store order. */
  lemma FiltrarSoundComplete(peliculas: seq<Pelicula>, f: PeliculasFiltrarDTO, hoy: int)
    ensures var r := Filtrar(peliculas, f, hoy);
      && (forall i :: 0 <= i < |r| ==> Cumple(r[i], f, hoy))
      && (forall p :: p in r <==> p in peliculas && Cumple(p, f, hoy))
      && (forall p :: multiset(r)[p] == if Cumple(p, f, hoy) then multiset(peliculas)[p] else 0)
      && Linq.IsSubsequence(r, peliculas)
  {
    FiltrarIsConjunction(peliculas, f, hoy);
  }

  /** With no title, both flags off and genre 0, Filtrar keeps every movie in store order. */
  lemma FiltrarSinFiltros(peliculas: seq<Pelicula>, f: PeliculasFiltrarDTO, hoy: int)
    requires SinFiltros(f)
    ensures Filtrar(peliculas, f, hoy) == peliculas
  {
    FiltrarIsConjunction(peliculas, f, hoy);
    Linq.WhereKeepsAll(peliculas, (p: Pelicula) => Cumple(p, f, hoy));
  }

  /* ---------------------------------------------------------------------------------------
     Landing page
     --------------------------------------------------------------------------------------- */

  /** How many movies each landing-page list shows. */
  const Top: nat := 6

  function FechaLanzamiento(): Pelicula -> int
  {
    (p: Pelicula) => p.fechaLanzamiento
  }

  /** `r` is a landing list drawn from `peliculas` by `keep`: as many stored movies satisfying
      `keep` as there are, up to Top, none listed more often than it is stored, earliest release
      first; a
      satisfying movie is left out only when Top movies are listed, none released later than it. */
  ghost predicate ListaDeInicio(r: seq<Pelicula>, peliculas: seq<Pelicula>, keep: Pelicula -> bool)
  {
    && |r| == (if |Linq.Where(peliculas, keep)| < Top then |Linq.Where(peliculas, keep)| else Top)
    && multiset(r) <= multiset(peliculas)
    && (forall i :: 0 <= i < |r| ==> keep(r[i]) && r[i] in peliculas)
    && (forall i, j :: 0 <= i < j < |r| ==> r[i].fechaLanzamiento <= r[j].fechaLanzamiento)
    && (forall p :: p in peliculas && keep(p) && p !in r ==>
          |r| == Top && forall i :: 0 <= i < |r| ==> r[i].fechaLanzamiento <= p.fechaLanzamiento)
  }

  /** Where(keep).OrderBy(FechaLanzamiento).Take(Top) over the movie table. */
  function Primeros(peliculas: seq<Pelicula>, keep: Pelicula -> bool): (r: seq<Pelicula>)
    ensures ListaDeInicio(r, peliculas, keep)
  {
    var r := Linq.TopBy(peliculas, keep, FechaLanzamiento(), Top);
    assert multiset(Linq.Where(peliculas, keep)) <= multiset(peliculas);
    r
  }

  /** GET api/peliculas: the six earliest movies released after today, and the six earliest
      movies in theatres, each list sorted by release date. */
  function PaginaInicio(peliculas: seq<Pelicula>, hoy: int): (r: LandingPageDTO)
    ensures ListaDeInicio(r.proximosEstrenos, peliculas, EstrenoDespuesDe(hoy))
    ensures ListaDeInicio(r.enCines, peliculas, EnCartelera())
  {
    LandingPageDTO(Primeros(peliculas, EstrenoDespuesDe(hoy)), Primeros(peliculas, EnCartelera()))
  }

  /* ---------------------------------------------------------------------------------------
     Detail view
     --------------------------------------------------------------------------------------- */

  /** The actor list of the detail view, built row by row from the join rows: entry i carries
      row i's ActorId and its actor's name, biography, birth date and photo. */
  method ProyectarActores(rows: seq<PeliculasActores>) returns (actores: seq<ActorDTO>)
    ensures |actores| == |rows|
    ensures forall i :: 0 <= i < |rows| ==> actores[i] == ActorDTO(rows[i].actorId, rows[i].actor.nombre,
      rows[i].actor.biografia, rows[i].actor.fechaNacimiento, rows[i].actor.foto)
  {
    actores := [];
    for k := 0 to |rows|
      invariant |actores| == k
      invariant forall i :: 0 <= i < k ==> actores[i] == ActorDTO(rows[i].actorId, rows[i].actor.nombre,
        rows[i].actor.biografia, rows[i].actor.fechaNacimiento, rows[i].actor.foto)
    {
      var item := rows[k];
      actores := actores + [ActorDTO(item.actorId, item.actor.nombre, item.actor.biografia,
        item.actor.fechaNacimiento, item.actor.foto)];
    }
  }

  /** The cinema list of the detail view: entry i carries row i's CineId and its cinema's name. */
  method ProyectarCines(rows: seq<PeliculasCines>) returns (cines: seq<Cines.CineDTO>)
    ensures |cines| == |rows|
    ensures forall i :: 0 <= i < |rows| ==> cines[i] == Cines.CineDTO(rows[i].cineId, rows[i].cine.nombre)
  {
    cines := [];
    for k := 0 to |rows|
      invariant |cines| == k
      invariant forall i :: 0 <= i < k ==> cines[i] == Cines.CineDTO(rows[i].cineId, rows[i].cine.nombre)
    {
      var item := rows[k];
      cines := cines + [Cines.CineDTO(item.cineId, item.cine.nombre)];
    }
  }

  function DeLaPelicula(peliculaId: int): Rating -> bool
  {
    (x: Rating) => x.peliculaId == peliculaId
  }

  /** The rating is the given user's rating of the given movie. */
  predicate Rates(x: Rating, usuarioId: string, peliculaId: int)
  {
    x.usuarioId == usuarioId && x.peliculaId == peliculaId
  }

  function DelUsuario(usuarioId: string, peliculaId: int): Rating -> bool
  {
    (x: Rating) => Rates(x, usuarioId, peliculaId)
  }

  /** The sum of the scores of the ratings for one movie. */
  function SumaPuntuaciones(ratings: seq<Rating>, peliculaId: int): int
  {
    if ratings == [] then 0
    else
      var propia := if ratings[0].peliculaId == peliculaId then ratings[0].puntuacion else 0;
      propia + SumaPuntuaciones(ratings[1..], peliculaId)
  }

  /** The number of ratings for one movie. */
  function CuentaPuntuaciones(ratings: seq<Rating>, peliculaId: int): (n: nat)
    ensures n == 0 <==> forall i :: 0 <= i < |ratings| ==> ratings[i].peliculaId != peliculaId
  {
    if ratings == [] then 0
    else (if ratings[0].peliculaId == peliculaId then 1 else 0) + CuentaPuntuaciones(ratings[1..], peliculaId)
  }

  /** The average score of a movie, exactly; 0 when nobody has rated it. */
  function Promedio(ratings: seq<Rating>, peliculaId: int): (avg: real)
    ensures (forall i :: 0 <= i < |ratings| ==> ratings[i].peliculaId != peliculaId) ==> avg == 0.0
  {
    var n := CuentaPuntuaciones(ratings, peliculaId);
    if n == 0 then 0.0 else SumaPuntuaciones(ratings, peliculaId) as real / n as real
  }

  lemma {:induction false} SumaBounds(ratings: seq<Rating>, peliculaId: int, lo: int, hi: int)
    requires forall i :: 0 <= i < |ratings| && ratings[i].peliculaId == peliculaId ==> lo <= ratings[i].puntuacion <= hi
    ensures lo * CuentaPuntuaciones(ratings, peliculaId) <= SumaPuntuaciones(ratings, peliculaId)
    ensures SumaPuntuaciones(ratings, peliculaId) <= hi * CuentaPuntuaciones(ratings, peliculaId)
  {
    if ratings != [] {
      var rest := ratings[1..];
      SumaBounds(rest, peliculaId, lo, hi);
      if ratings[0].peliculaId == peliculaId {
        AddScoreBounds(lo, hi, CuentaPuntuaciones(rest, peliculaId), SumaPuntuaciones(rest, peliculaId), ratings[0].puntuacion);
      }
    }
  }

  /** One more score between lo and hi keeps a sum of c such scores between lo and hi times c. */
  lemma AddScoreBounds(lo: int, hi: int, c: int, sum: int, x: int)
    requires lo * c <= sum <= hi * c && lo <= x <= hi
    ensures lo * (c + 1) <= x + sum <= hi * (c + 1)
  {
    assert lo * (c + 1) == lo * c + lo;
    assert hi * (c + 1) == hi * c + hi;
  }

  /** When every score of a movie lies between lo and hi, so does its average. */
  lemma PromedioBounds(ratings: seq<Rating>, peliculaId: int, lo: int, hi: int)
    requires forall i :: 0 <= i < |ratings| && ratings[i].peliculaId == peliculaId ==> lo <= ratings[i].puntuacion <= hi
    requires exists i :: 0 <= i < |ratings| && ratings[i].peliculaId == peliculaId
    ensures lo as real <= Promedio(ratings, peliculaId) <= hi as real
  {
    SumaBounds(ratings, peliculaId, lo, hi);
    var c := CuentaPuntuaciones(ratings, peliculaId);
    var sum := SumaPuntuaciones(ratings, peliculaId);
    var k :| 0 <= k < |ratings| && ratings[k].peliculaId == peliculaId;
    assert c != 0;
    MeanBounds(lo, hi, c, sum);
  }

  /** A sum of c scores between lo and hi, divided by c, lies between lo and hi. */
  lemma MeanBounds(lo: int, hi: int, c: int, sum: int)
    requires c > 0 && lo * c <= sum <= hi * c
    ensures lo as real <= sum as real / c as real <= hi as real
  {
    ScaledBoundsAsReal(lo, hi, c, sum);
    QuotientBounds(sum as real, c as real, lo as real, hi as real);
  }

  lemma ScaledBoundsAsReal(lo: int, hi: int, c: int, sum: int)
    requires lo * c <= sum <= hi * c
    ensures lo as real * c as real <= sum as real <= hi as real * c as real
  {
  }

  lemma QuotientBounds(sum: real, n: real, lo: real, hi: real)
    requires n > 0.0 && lo * n <= sum <= hi * n
    ensures lo <= sum / n <= hi
  {
  }

  /** Two ratings of 3 and 5 average 4. */
  lemma PromedioExample()
    ensures Promedio([Rating("a", 1, 3), Rating("b", 1, 5), Rating("a", 2, 1)], 1) == 4.0
  {
    var rs := [Rating("a", 1, 3), Rating("b", 1, 5), Rating("a", 2, 1)];
    assert rs[1..] == [Rating("b", 1, 5), Rating("a", 2, 1)];
    assert rs[1..][1..] == [Rating("a", 2, 1)];
    assert rs[1..][1..][1..] == [];
  }

  /** The viewer's own score for a movie: the score of the first rating by that user for that
      movie, or 0 when the viewer is anonymous or has not rated it. */
  function VotoDe(ratings: seq<Rating>, usuarioId: Option<string>, peliculaId: int): (voto: int)
    ensures usuarioId.None? ==> voto == 0
    ensures usuarioId.Some? && (forall i :: 0 <= i < |ratings| ==> !Rates(ratings[i], usuarioId.value, peliculaId))
      ==> voto == 0
    ensures usuarioId.Some? && (exists i :: 0 <= i < |ratings| && Rates(ratings[i], usuarioId.value, peliculaId))
      ==> exists k ::
            && 0 <= k < |ratings| && Rates(ratings[k], usuarioId.value, peliculaId)
            && voto == ratings[k].puntuacion
            && forall j :: 0 <= j < k ==> !Rates(ratings[j], usuarioId.value, peliculaId)
  {
    if usuarioId.None? then 0
    else match Linq.FirstIndex(ratings, DelUsuario(usuarioId.value, peliculaId))
      case None => 0
      case Some(k) => ratings[k].puntuacion
  }

  /** The position of the first movie with the given id, if any. */
  function IndexOfId(peliculas: seq<Pelicula>, id: int): (r: Option<nat>)
    ensures r.None? <==> forall i :: 0 <= i < |peliculas| ==> peliculas[i].id != id
    ensures r.Some? ==> r.value < |peliculas| && peliculas[r.value].id == id
  {
    Linq.FirstIndex(peliculas, (p: Pelicula) => p.id == id)
  }

  /** The genres of the store not among the selected ones: Where(x => !ids.Contains(x.Id)). */
  function GenerosNoSeleccionados(generos: seq<Genero>, seleccionados: seq<GeneroDTO>): (r: seq<Genero>)
    ensures forall g :: g in r <==> g in generos && forall j :: 0 <= j < |seleccionados| ==> seleccionados[j].id != g.id
    ensures forall i, j :: 0 <= i < |r| && 0 <= j < |seleccionados| ==> r[i].id != seleccionados[j].id
    ensures Linq.IsSubsequence(r, generos)
  {
    var ids := seq(|seleccionados|, i requires 0 <= i < |seleccionados| => seleccionados[i].id);
    assert forall j :: 0 <= j < |seleccionados| ==> ids[j] == seleccionados[j].id;
    Linq.Where(generos, (g: Genero) => g.id !in ids)
  }

  /** The join rows' navigation properties are the rows their keys name: ThenInclude loads the
      actor with the row's ActorId and the cinema with its CineId. */
  predicate NavegacionCoherente(p: Pelicula)
  {
    && (forall i :: 0 <= i < |p.peliculasActores| ==> p.peliculasActores[i].actor.id == p.peliculasActores[i].actorId)
    && (forall i :: 0 <= i < |p.peliculasCines| ==> p.peliculasCines[i].cine.id == p.peliculasCines[i].cineId)
  }

  /** No two movies share an id. */
  ghost predicate UniqueIds(peliculas: seq<Pelicula>)
  {
    forall i, j :: 0 <= i < j < |peliculas| ==> peliculas[i].id != peliculas[j].id
  }

  /** The movie table's invariant: ids are keys below the next identity value, and every movie's
      actor rows carry their list order and navigation rows that match their keys. */
  ghost predicate TablaValida(peliculas: seq<Pelicula>, nextId: int)
  {
    && UniqueIds(peliculas)
    && (forall i :: 0 <= i < |peliculas| ==> peliculas[i].id < nextId)
    && (forall i :: 0 <= i < |peliculas| ==> OrdenEscrito(peliculas[i].peliculasActores))
    && (forall i :: 0 <= i < |peliculas| ==> NavegacionCoherente(peliculas[i]))
  }

  /** Replacing one movie by a valid movie with the same id keeps the table valid. */
  lemma ReemplazarConserva(peliculas: seq<Pelicula>, k: nat, nueva: Pelicula, nextId: int)
    requires TablaValida(peliculas, nextId) && k < |peliculas| && nueva.id == peliculas[k].id
    requires OrdenEscrito(nueva.peliculasActores) && NavegacionCoherente(nueva)
    ensures TablaValida(peliculas[k := nueva], nextId)
  {
  }

  /** Removing one movie keeps the table valid and leaves no movie with its id. */
  lemma QuitarConserva(peliculas: seq<Pelicula>, k: nat, nextId: int)
    requires TablaValida(peliculas, nextId) && k < |peliculas|
    ensures var resto := peliculas[..k] + peliculas[k + 1..];
      TablaValida(resto, nextId) && forall i :: 0 <= i < |resto| ==> resto[i].id != peliculas[k].id
  {
    var resto := peliculas[..k] + peliculas[k + 1..];
    assert forall i :: 0 <= i < |resto| ==> resto[i] == peliculas[if i < k then i else i + 1];
  }

  /** The controller with the tables it reads and writes. `nextId` is the identity value the
      database hands to the next inserted movie. */
  class PeliculasController {
    var peliculas: seq<Pelicula>
    var generos: seq<Genero>
    var ratings: seq<Rating>
    var nextId: int

    /** Ids are keys, and every stored movie's actor rows are numbered by position, since every
        write goes through EscribirOrdenActores. */
    ghost predicate Valid()
      reads this
    {
      TablaValida(peliculas, nextId)
    }

    constructor (peliculas0: seq<Pelicula>, generos0: seq<Genero>, ratings0: seq<Rating>, nextId0: int)
      requires TablaValida(peliculas0, nextId0)
      ensures Valid()
      ensures peliculas == peliculas0 && generos == generos0 && ratings == ratings0 && nextId == nextId0
    {
      peliculas := peliculas0;
      generos := generos0;
      ratings := ratings0;
      nextId := nextId0;
    }

    /** GET api/peliculas/{id}: NotFound exactly when no movie has the id. Otherwise the actor and
        cinema lists mirror the movie's join rows, the average is that of its ratings, and the
        viewer's score is their own rating of it or 0. */
    method Get(id: int, usuarioId: Option<string>) returns (r: Response<PeliculaDTO>)
      ensures r.NotFound? <==> forall i :: 0 <= i < |peliculas| ==> peliculas[i].id != id
      ensures r.Ok? ==> exists k :: 0 <= k < |peliculas| && peliculas[k].id == id && Detalla(r.value, peliculas[k])
      ensures r.Ok? ==> r.value.promedioVoto == Promedio(ratings, id)
      ensures r.Ok? ==> r.value.votoUsuario == VotoDe(ratings, usuarioId, id)
    {
      var k := IndexOfId(peliculas, id);
      if k.None? {
        return NotFound;
      }
      var pelicula := peliculas[k.value];
      var promedioVoto := 0.0;
      var votoUsuario := 0;
      if Linq.FirstIndex(ratings, DeLaPelicula(id)).Some? {
        promedioVoto := Promedio(ratings, id);
        if usuarioId.Some? {
          var ratingDB := Linq.FirstIndex(ratings, DelUsuario(usuarioId.value, id));
          if ratingDB.Some? {
            votoUsuario := ratings[ratingDB.value].puntuacion;
          }
        }
      } else if usuarioId.Some? {
        forall i | 0 <= i < |ratings| ensures !Rates(ratings[i], usuarioId.value, id) {
          assert !DeLaPelicula(id)(ratings[i]);
        }
      }
      var actores := ProyectarActores(pelicula.peliculasActores);
      var cines := ProyectarCines(pelicula.peliculasCines);
      r := Ok(PeliculaDTO(promedioVoto, votoUsuario, actores, cines));
    }

    /** GET api/peliculas/PutGet/{id}: NotFound exactly when Get finds no movie. Otherwise the
        genres not selected are exactly the stored genres whose id is not among the selected
        ones, in store order, and the selected cinemas are the detail view's cinemas.
        `generosSeleccionados` is the Generos list the mapper puts in the movie's DTO. */
    method PutGet(id: int, usuarioId: Option<string>, generosSeleccionados: seq<GeneroDTO>)
      returns (r: Response<PeliculasPutGetDTO>)
      ensures r.NotFound? <==> forall i :: 0 <= i < |peliculas| ==> peliculas[i].id != id
      ensures r.Ok? ==> exists k :: 0 <= k < |peliculas| && peliculas[k].id == id && Detalla(r.value.pelicula, peliculas[k])
      ensures r.Ok? ==> r.value.generosSeleccionados == generosSeleccionados
      ensures r.Ok? ==> r.value.cinesSeleccionados == r.value.pelicula.cines
      ensures r.Ok? ==> forall g :: g in r.value.generosNoSeleccionados <==>
        g in generos && forall j :: 0 <= j < |generosSeleccionados| ==> generosSeleccionados[j].id != g.id
      ensures r.Ok? ==> Linq.IsSubsequence(r.value.generosNoSeleccionados, generos)
    {
      var pelicula := Get(id, usuarioId);
      if pelicula.NotFound? {
        return NotFound;
      }
      var noSeleccionados := GenerosNoSeleccionados(generos, generosSeleccionados);
      r := Ok(PeliculasPutGetDTO(pelicula.value, generosSeleccionados, noSeleccionados, pelicula.value.cines));
    }

    /** POST api/peliculas: stores the mapped movie under the next identity value, with the
        release date from FechaEstreno and its actor rows numbered by position. */
    method Post(mapeada: Pelicula, fechaEstreno: int) returns (r: Response<()>)
      requires Valid() && NavegacionCoherente(mapeada)
      modifies this
      ensures Valid() && r == Ok(())
      ensures peliculas == old(peliculas) + [mapeada.(id := old(nextId), fechaLanzamiento := fechaEstreno,
        peliculasActores := ConOrden(mapeada.peliculasActores))]
      ensures nextId == old(nextId) + 1 && generos == old(generos) && ratings == old(ratings)
    {
      var actores := new PeliculasActores[|mapeada.peliculasActores|](i requires 0 <= i < |mapeada.peliculasActores| =>
        mapeada.peliculasActores[i]);
      assert actores[..] == mapeada.peliculasActores;
      EscribirOrdenActores(actores);
      ConOrdenAt(mapeada.peliculasActores);
      var pelicula := mapeada.(id := nextId, fechaLanzamiento := fechaEstreno, peliculasActores := actores[..]);
      peliculas := peliculas + [pelicula];
      nextId := nextId + 1;
      r := Ok(());
    }

    /** PUT api/peliculas/{id}: NotFound and no change for an unknown id. Otherwise that movie is
        replaced by the mapped one, keeping its id, with its actor rows numbered by position; the
        other movies are untouched. */
    method Put(id: int, mapeada: Pelicula) returns (r: Response<()>)
      requires Valid() && NavegacionCoherente(mapeada)
      modifies this
      ensures Valid() && nextId == old(nextId) && generos == old(generos) && ratings == old(ratings)
      ensures r.NotFound? <==> forall i :: 0 <= i < |old(peliculas)| ==> old(peliculas)[i].id != id
      ensures r.NotFound? ==> peliculas == old(peliculas)
      ensures r.Ok? ==> |peliculas| == |old(peliculas)| && forall i :: 0 <= i < |peliculas| ==>
        peliculas[i] == if old(peliculas)[i].id == id
          then mapeada.(id := id, peliculasActores := ConOrden(mapeada.peliculasActores))
          else old(peliculas)[i]
    {
      var k := IndexOfId(peliculas, id);
      if k.None? {
        return NotFound;
      }
      var actores := new PeliculasActores[|mapeada.peliculasActores|](i requires 0 <= i < |mapeada.peliculasActores| =>
        mapeada.peliculasActores[i]);
      assert actores[..] == mapeada.peliculasActores;
      EscribirOrdenActores(actores);
      ConOrdenAt(mapeada.peliculasActores);
      var nueva := mapeada.(id := id, peliculasActores := actores[..]);
      ReemplazarConserva(peliculas, k.value, nueva, nextId);
      peliculas := peliculas[k.value := nueva];
      r := Ok(());
    }

    /** DELETE api/peliculas/{id}: NotFound and no change for an unknown id; otherwise exactly
        that movie, with its join rows, is removed, so a later Get of the id finds nothing. */
    method Delete(id: int) returns (r: Response<()>)
      requires Valid()
      modifies this
      ensures Valid() && nextId == old(nextId) && generos == old(generos) && ratings == old(ratings)
      ensures r.NotFound? <==> forall i :: 0 <= i < |old(peliculas)| ==> old(peliculas)[i].id != id
      ensures r.NotFound? ==> peliculas == old(peliculas)
      ensures r.Ok? ==> exists k ::
        0 <= k < |old(peliculas)| && old(peliculas)[k].id == id && peliculas == old(peliculas)[..k] + old(peliculas)[k + 1..]
      ensures r.Ok? ==> forall i :: 0 <= i < |peliculas| ==> peliculas[i].id != id
    {
      var k := IndexOfId(peliculas, id);
      if k.None? {
        return NotFound;
      }
      QuitarConserva(peliculas, k.value, nextId);
      peliculas := peliculas[..k.value] + peliculas[k.value + 1..];
      r := Ok(());
    }
  }

  /** The hand-built lists of a detail view mirror the movie's join rows, in their order. */
  ghost predicate Detalla(dto: PeliculaDTO, p: Pelicula)
  {
    && |dto.actores| == |p.peliculasActores|
    && (forall i :: 0 <= i < |dto.actores| ==> dto.actores[i] == ActorDTO(p.peliculasActores[i].actorId,
         p.peliculasActores[i].actor.nombre, p.peliculasActores[i].actor.biografia,
         p.peliculasActores[i].actor.fechaNacimiento, p.peliculasActores[i].actor.foto))
    && |dto.cines| == |p.peliculasCines|
    && (forall i :: 0 <= i < |dto.cines| ==>
         dto.cines[i] == Cines.CineDTO(p.peliculasCines[i].cineId, p.peliculasCines[i].cine.nombre))
  }
}
