# PeliculasAPI: hand-written controller logic, modelled in Dafny

PeliculasAPI is a movie-catalog REST backend (movies, actors, genres, cinemas, ratings). Almost all
of it is ORM queries and object-mapper calls; this project models the logic its controllers write
by hand, over an in-memory store:

- `PeliculasController`: `EscribirOrdenActores` (each movie-actor join row gets `Orden` equal to its
  list index), the optional predicates of `Filtrar`, the landing-page selection (filter, order by
  release date, take 6), the actor and cinema lists of the detail view, the viewer's own rating
  and the average, the genre complement of the edit view (`PutGet`), and the NotFound branches of
  `Get`, `PutGet`, `Put` and `Delete`, together with the writes of `Post` and `Put`.
- `PaginacionDTO`: `Pagina` defaults to 1 and the `RecordsPorPagina` setter clamps the page size to
  at most 50. The source's accessors call themselves (see Findings); the model keeps a backing field.
- `CinesController`: list, get by id, create, rename and delete over the cinema table, with the
  hand-written `{Id, Nombre}` projection.

Files: `wrappers.dfy` (Option, Response), `linq.dfy` (the query operators Where, FirstOrDefault,
OrderBy, Take as sequence functions), `paginacion.dfy`, `cines.dfy`, `peliculas.dfy`.

Modelling choices:
- Each table is a sequence in store order; ids are keys (`Valid()`), and `nextId` stands for the
  identity column. The ORM's `FirstOrDefaultAsync(x => x.Id == id)` is `Linq.FirstIndex`.
- Dates are day numbers and "today" (`DateTime.Today`) is a parameter. The viewer's identity is a
  parameter `usuarioId: Option<string>` (None for an anonymous request).
- Controllers that change tables are classes whose methods modify the sequences; `EscribirOrdenActores`
  rewrites an `array` in place. Read-only, query-shaped actions (`Filtrar`, the landing page) are
  functions of the movie table.
- Object-mapper output is not modelled: `Post` and `Put` receive the mapped movie as input, `PutGet`
  receives the mapper's `Generos` list, and the detail view carries only the fields the controller
  fills in itself.
- The average rating is an exact rational (`real`), not a double.
- The model of `EscribirOrdenActores` and of the detail view follows the code's list order. The
  detail view lists a movie's actor rows in the order the store returns them, which the model takes
  to be the order they were written; under that reading the invariant `OrdenEscrito` makes it
  `Orden` order for every stored movie.
- A movie's join rows carry the actor and cinema rows they point to; `NavegacionCoherente` (part of
  the table invariant `TablaValida`) keeps each carried row's id equal to the row's `ActorId` or `CineId`.

## Model

| member | source | states |
|---|---|---|
| `Linq.Where` | PeliculasAPI/Controllers/PeliculasController.cs:151-172 | a Where clause keeps exactly the rows satisfying its predicate, with their multiplicity, as an order-preserving subsequence |
| `Linq.WhereWhere` | PeliculasAPI/Controllers/PeliculasController.cs:149-172 | two chained Where clauses keep what one Where on their conjunction keeps |
| `Linq.WhereKeepsAll` | PeliculasAPI/Controllers/PeliculasController.cs:149 | a Where clause every row satisfies returns the query unchanged |
| `Linq.FirstIndex` | PeliculasAPI/Controllers/CinesController.cs:48 | FirstOrDefault finds nothing exactly when no row matches; otherwise the first matching row |
| `Linq.OrderBy` | PeliculasAPI/Controllers/PeliculasController.cs:45 | OrderBy returns a permutation of its input sorted ascending by the key |
| `Linq.InsertBy` | PeliculasAPI/Controllers/PeliculasController.cs:51 | inserting into a sorted list keeps it sorted and adds exactly one row |
| `Linq.Take` | PeliculasAPI/Controllers/PeliculasController.cs:46 | Take(n) is the first min(n, length) rows |
| `Linq.TakeOrderedKeepsEarliest` | PeliculasAPI/Controllers/PeliculasController.cs:43-47 | after OrderBy then Take(n), a row left out has a key no smaller than every kept row, and only n rows are kept then |
| `Linq.TopBy` | PeliculasAPI/Controllers/PeliculasController.cs:43-53 | Where, OrderBy and Take give min(n, number of satisfying rows) satisfying input rows, none more often than Where yields it, sorted, and the earliest ones |
| `Linq.TakeMultiset` | PeliculasAPI/Controllers/PeliculasController.cs:46 | Take keeps no row more often than its input holds it |
| `Paginacion.Limitar` | PeliculasAPI/DTOs/PaginacionDTO.cs:22 | the stored size is at most 50; a size above 50 becomes 50; a size of 50 or less, zero and negatives included, is kept |
| `Paginacion.LimitarIdempotente` | PeliculasAPI/DTOs/PaginacionDTO.cs:22 | clamping a clamped size changes nothing |
| `Paginacion.PaginacionDTO.constructor` | PeliculasAPI/DTOs/PaginacionDTO.cs:10-14 | a fresh object has Pagina 1 and a stored page size of 0 |
| `Paginacion.PaginacionDTO.SetPagina` | PeliculasAPI/DTOs/PaginacionDTO.cs:10 | the Pagina setter stores any value and leaves the page size alone |
| `Paginacion.PaginacionDTO.RecordsPorPagina` | PeliculasAPI/DTOs/PaginacionDTO.cs:16-19 | the getter returns the stored size, which never exceeds 50 |
| `Paginacion.PaginacionDTO.SetRecordsPorPagina` | PeliculasAPI/DTOs/PaginacionDTO.cs:20-23 | the setter stores the clamped size, keeps the invariant (size at most 50) and leaves Pagina alone |
| `Paginacion.ReadBackUnchanged` | PeliculasAPI/DTOs/PaginacionDTO.cs:14-23 | reading the page size and storing it again leaves the object unchanged |
| `Paginacion.ClampExample` | PeliculasAPI/DTOs/PaginacionDTO.cs:12-23 | a request for 1000 records reads back as 50 |
| `Paginacion.GetterAsWritten` | PeliculasAPI/DTOs/PaginacionDTO.cs:16-19 | the getter as written: each call makes the same call again until the stack runs out; no contract of its own, `GetterAsWrittenNeverReturns` states its behaviour |
| `Paginacion.SetterAsWritten` | PeliculasAPI/DTOs/PaginacionDTO.cs:20-23 | the setter as written: each call assigns the property, calling the setter with the clamped value; no contract of its own, `SetterAsWrittenNeverReturns` states its behaviour |
| `Paginacion.GetterAsWrittenNeverReturns` | PeliculasAPI/DTOs/PaginacionDTO.cs:16-19 | the getter as written never returns, however deep the stack |
| `Paginacion.SetterAsWrittenNeverReturns` | PeliculasAPI/DTOs/PaginacionDTO.cs:20-23 | the setter as written never stores anything, however deep the stack |
| `Cines.IndexOfId` | PeliculasAPI/Controllers/CinesController.cs:48-53 | the cinema lookup fails exactly when no cinema has the id; otherwise it finds one with that id |
| `Cines.CinesController.Get` | PeliculasAPI/Controllers/CinesController.cs:29-42 | one DTO per stored cinema, in store order, with the same Id and Nombre |
| `Cines.CinesController.GetById` | PeliculasAPI/Controllers/CinesController.cs:48-57 | NotFound exactly when no cinema has the id; otherwise that cinema's id and name |
| `Cines.CinesController.Post` | PeliculasAPI/Controllers/CinesController.cs:63-68 | exactly one cinema is appended, with the request's name, a fresh id and the default location (0, 0); the others are untouched |
| `Cines.CinesController.Put` | PeliculasAPI/Controllers/CinesController.cs:74-84 | unknown id: NotFound, nothing changes; known id: only that cinema's Nombre changes, Id, Ubicacion and other cinemas stay |
| `Cines.CinesController.Delete` | PeliculasAPI/Controllers/CinesController.cs:90-100 | unknown id: NotFound, nothing changes; known id: exactly that cinema is removed and no cinema with the id remains |
| `Peliculas.ConOrdenDesdeAt` | PeliculasAPI/Controllers/PeliculasController.cs:298-301 | numbering from a base gives row i the Orden base + i and changes nothing else |
| `Peliculas.ConOrdenAt` | PeliculasAPI/Controllers/PeliculasController.cs:298-301 | after the rewrite the list keeps its length, row i has Orden i and keeps its ActorId, PeliculaId and actor |
| `Peliculas.ConOrdenIdempotent` | PeliculasAPI/Controllers/PeliculasController.cs:294-303 | rewriting a list already numbered by position changes nothing |
| `Peliculas.EscribirOrdenActores` | PeliculasAPI/Controllers/PeliculasController.cs:294-303 | the array is rewritten in place to the numbered list; a null list is left alone |
| `Peliculas.Contains` | PeliculasAPI/Controllers/PeliculasController.cs:153 | the title filter holds exactly when the search text occurs at some position of the title |
| `Peliculas.WhereIf` | PeliculasAPI/Controllers/PeliculasController.cs:151-172 | adding a Where clause only when its option is set is a Where on the conjunction with that option's predicate |
| `Peliculas.Filtrar` | PeliculasAPI/Controllers/PeliculasController.cs:149-172 | every movie the query keeps is a stored movie meeting each active filter (title, EnCines, release after today, genre) |
| `Peliculas.FiltrarIsConjunction` | PeliculasAPI/Controllers/PeliculasController.cs:149-172 | the chain of optional Where clauses equals one Where on the conjunction of the active predicates |
| `Peliculas.FiltrarSoundComplete` | PeliculasAPI/Controllers/PeliculasController.cs:151-172 | every movie kept meets each active predicate (title, EnCines, release after today, genre), every stored movie meeting them is kept, store order is kept |
| `Peliculas.FiltrarSinFiltros` | PeliculasAPI/Controllers/PeliculasController.cs:149-172 | empty title, both flags off and GeneroId 0 keep every movie in store order |
| `Peliculas.Primeros` | PeliculasAPI/Controllers/PeliculasController.cs:43-53 | min(6, number of matches) stored movies meeting the predicate, none listed more often than it is stored, ascending by release date, and no left-out match is released earlier |
| `Peliculas.PaginaInicio` | PeliculasAPI/Controllers/PeliculasController.cs:40-53 | both landing lists have at most 6 movies, each meets its predicate (released after today, or in theatres), each is sorted by release date, neither lists a movie more often than it is stored, and a list drops a match only when full of movies released no later than it |
| `Peliculas.ProyectarActores` | PeliculasAPI/Controllers/PeliculasController.cs:105-120 | the actor list mirrors the join rows: same length and order, entry i has row i's ActorId and its actor's name, biography, birth date and photo |
| `Peliculas.ProyectarCines` | PeliculasAPI/Controllers/PeliculasController.cs:122-134 | the cinema list mirrors the join rows with Id = CineId and the cinema's name |
| `Peliculas.CuentaPuntuaciones` | PeliculasAPI/Controllers/PeliculasController.cs:82 | a movie has no ratings exactly when its rating count is 0 |
| `Peliculas.Promedio` | PeliculasAPI/Controllers/PeliculasController.cs:79-84 | a movie without ratings has average 0 |
| `Peliculas.SumaBounds` | PeliculasAPI/Controllers/PeliculasController.cs:84 | the score sum lies between count times the lowest and count times the highest score |
| `Peliculas.PromedioBounds` | PeliculasAPI/Controllers/PeliculasController.cs:84 | the average of a rated movie lies between its lowest and highest possible score |
| `Peliculas.PromedioExample` | PeliculasAPI/Controllers/PeliculasController.cs:84 | ratings 3 and 5 average 4 |
| `Peliculas.VotoDe` | PeliculasAPI/Controllers/PeliculasController.cs:86-97 | the viewer's score is 0 when anonymous or not rated; otherwise the score of the first rating by that viewer for that movie |
| `Peliculas.IndexOfId` | PeliculasAPI/Controllers/PeliculasController.cs:68-77 | the movie lookup fails exactly when no movie has the id |
| `Peliculas.GenerosNoSeleccionados` | PeliculasAPI/Controllers/PeliculasController.cs:228-231 | the non-selected genres are exactly the stored genres whose id is not a selected id, so disjoint from the selection, in store order |
| `Peliculas.PeliculasController.Get` | PeliculasAPI/Controllers/PeliculasController.cs:64-136 | NotFound exactly for an unknown id; otherwise actor and cinema lists mirror the join rows, the average is the ratings' average (0 if none) and the viewer's score is their own rating or 0 |
| `Peliculas.PeliculasController.PutGet` | PeliculasAPI/Controllers/PeliculasController.cs:219-248 | NotFound exactly for an unknown id; otherwise the non-selected genres are the complement of the selection and the selected cinemas are the detail view's cinemas |
| `Peliculas.PeliculasController.Post` | PeliculasAPI/Controllers/PeliculasController.cs:181-191 | the mapped movie is appended with a fresh id, FechaEstreno as release date and actor rows numbered by position |
| `Peliculas.PeliculasController.Put` | PeliculasAPI/Controllers/PeliculasController.cs:252-275 | unknown id: NotFound, nothing changes; known id: that movie is replaced by the mapped one with its id kept and its actor rows numbered, others untouched |
| `Peliculas.PeliculasController.Delete` | PeliculasAPI/Controllers/PeliculasController.cs:279-292 | unknown id: NotFound, nothing changes; known id: exactly that movie is removed and no movie with the id remains |
| `Peliculas.ReemplazarConserva` | PeliculasAPI/Controllers/PeliculasController.cs:265-274 | replacing a movie by one with the same id, numbered actor rows and matching navigation rows keeps the movie table's keys and invariants |
| `Peliculas.QuitarConserva` | PeliculasAPI/Controllers/PeliculasController.cs:288-289 | removing a movie keeps the movie table's keys and invariants and leaves no movie with the removed id |

## Findings

| source | as written | input that shows it | evidently intended | confidence | as-written member | corrected member |
|---|---|---|---|---|---|---|
| PeliculasAPI/DTOs/PaginacionDTO.cs:16-19 | the getter returns `RecordsPorPagina`, calling itself | any read of the page size | return the value stored by the setter | high; not executed | `Paginacion.GetterAsWrittenNeverReturns` | `Paginacion.PaginacionDTO.RecordsPorPagina` |
| PeliculasAPI/DTOs/PaginacionDTO.cs:20-23 | the setter assigns `RecordsPorPagina`, calling itself | setting the page size to 1000 | store 50 (the clamped value) in a backing field | high; not executed | `Paginacion.SetterAsWrittenNeverReturns` | `Paginacion.PaginacionDTO.SetRecordsPorPagina` |

Each call of the literal accessors makes the same call again, so the stack overflows. The
model's `GetterAsWritten` and `SetterAsWritten` take the stack depth as a parameter and never produce
a value, at any depth. The two lemmas that say so are short inductions: their point is to exhibit
the non-termination, not depth of proof. The rest of the model uses the backing field.

## Left out

- Entity Framework and async: `Include`/`ThenInclude`, `ToListAsync`, `SaveChangesAsync`, `Add`/`Remove` become plain sequence updates done synchronously. Transactions and concurrent requests are not modelled.
- Object-mapper calls (`mapper.Map`): the profiles are not part of this model. The scalar fields of `PeliculaDTO`, the DTOs of the landing page and of `Filtrar`, and the `Generos` list of the detail view are not computed. `Post` and `Put` take the mapped movie as input, and `PutGet` takes the mapped `Generos` list as input.
- Paging: `Paginar` and `InsertarParametrosPaginacionEnCabecera` are not part of this model, so `Filtrar` is modelled up to the query it pages, and the count header is not modelled.
- Authentication: JWT, the email claim and `FindByEmailAsync` are replaced by the `usuarioId` parameter. A signed-in user whose account is missing makes the source fail with a null dereference; that path is not modelled.
- `Peliculas.Promedio`: `AverageAsync` yields a double; the model states the exact rational average, so floating-point rounding is not captured.
- `Peliculas.Contains`: the database's text comparison decides case rules; the model compares characters exactly (ordinal), so a case-insensitive collation would keep more movies than the model.
- `Linq.OrderBy`: the database gives no order among movies with the same release date. The model sorts stably but its contract only promises sorted order and the same rows.
- The catch-and-rethrow in the detail `Get` (PeliculasController.cs:138-142) changes nothing and is not modelled; store failures are out of scope.
- `PostGet` is not modelled: its cinema list is the same loop as `CinesController.Get`, and its genre list goes through the mapper.
- `PutGet` also computes the non-selected cinemas but never returns them; that query is not modelled.
- `Peliculas.PeliculasController.Delete`: the movie's join rows are part of the movie value and go with it. Whether its ratings are deleted depends on cascade settings that are not part of this model, so the ratings table is left unchanged.
- `Peliculas.EscribirOrdenActores`: join rows are values in an array, so two list positions cannot hold the same row object; aliasing between list entries is not captured.
- The movie store holds copies of the actor and cinema rows inside the join rows, not links to the actor and cinema tables: `Post` and `Put` require the copies to match their keys, but a later rename through `CinesController.Put` does not reach the detail view of a stored movie, whereas the source's `ThenInclude` would load the current row.
- The detail view's actor order is the order the store returns the join rows; `Include` promises no order and the source does not sort by `Orden`, so the model takes it to be the order the rows were written.
- Post and Put: the database fills in the join rows' `PeliculaId` when it saves a new movie; the model keeps the mapped rows' values.
- Identity values (`nextId`) and `int` ids are unbounded integers; 32-bit overflow of ids is not modelled.
- File storage (posters, photos) is commented out in the source and is not modelled. `Cine.Ubicacion` is a `System.Drawing.Point`, a pair of `int` coordinates; the model carries it as a pair of unbounded integers, a new cinema gets the struct's default (0, 0), and no modelled action reads it.
- `GenerosController`: its actions are a query plus a mapper call, and their NotFound checks mirror those of `CinesController`.
- Validation attributes (`Required`, `StringLength` 75 and 200) are enforced by the framework before an action runs, and are not modelled.
