# Job postings: the `Vacante` model and the in-memory vacancy service

This project models the domain core of an employment site built on Spring Boot.
It has two parts.

- **A job posting** (`Vacante`). Seven fields: id, name, description, date,
  salary, featured flag and image. Each has a setter that writes only that
  field. The image defaults to `"no-image.png"`. The salary is sorted into one
  of three tiers, `BAJO`, `NORMAL` and `ALTO`, by two fixed thresholds, 2000.0
  and 8000.0. A salary exactly on a threshold belongs to the lower tier. Each
  tier has a fixed label.
- **The vacancy service.** It plays the part of a future database. When it is
  built, it fills a list with four sample postings, ids 1 to 4, in a fixed
  order. `buscarTodas` returns that list. `buscarPorId` walks the list in order
  and compares ids with null-safe equality. It returns a one-element list
  holding the first match, or an empty list. The repository has two copies of
  the service, `Impl_VacanteService` (an ordinary list field) and
  `VacanteService_Impl` (a `final` list field). Both are modelled: two classes
  that share the seeding and the search.

Files:

- `wrappers.dfy`: `Option` stands for a nullable Java reference.
  `ObjectsEquals` is `java.util.Objects.equals`.
- `vacante.dfy` (module `Model`): the tier function and its lemmas, the
  `NivelSalarial` tiers with their labels, and the `Vacante` class. The class
  fields are the getters. The setters are methods. `State()` gives all fields as
  one `VacanteState` value.
- `vacante_service.dfy` (module `Service`):
  - the sample data and the seeding method;
  - the linear search by id;
  - the two service classes;
  - lemmas about the seeded contents and about search results.

How the Java maps to Dafny:

- A nullable `Integer`, `String` or `Date` is an `Option`.
- `double` is `real`. The code only compares the salary and never does
  arithmetic on it.
- A `java.util.Date` is `Date(millis)`.
- `SimpleDateFormat.parse` is a parameter `parse: string -> Option<Date>` of
  both service constructors. `None` stands for a `ParseException`.

The seeding is all or nothing. All four postings are built inside one `try`,
dates included, before the first `add`
(src/main/java/net/itinajero/service/Impl_VacanteService.java:85-139). The
comment beside the `try` says that a badly written date is logged and the
constructor carries on. It does carry on, but with an empty list: a single date
that fails to parse means none of the four postings is added, not just the
posting with that date. `Service.CrearVacantesDePrueba` and the `Sembrada`
predicate state this.

The controller's detail page calls `.get(0)` on the result of `buscarPorId`
without a check
(src/main/java/net/itinajero/controller/VacantesController.java:118).
`PrimeraCoincidencia` states that the result is empty exactly when no stored
posting has the id. So that call is safe only for ids that are present, which in
a seeded list means 1 to 4 (`Service.BusquedaEnListaSembrada`).

## Model

| member | source | states |
|---|---|---|
| `Model.NivelDeSalario` | src/main/java/net/itinajero/model/Vacante.java:220-230 | the tier is BAJO exactly when salary <= 2000.0, NORMAL exactly when 2000.0 < salary <= 8000.0, ALTO exactly when salary > 8000.0 (each direction of each equivalence) |
| `Model.NivelEnLosUmbrales` | src/main/java/net/itinajero/model/Vacante.java:222-228 | 2000.0 is BAJO, 2000.01 is NORMAL, 8000.0 is NORMAL, 8000.01 is ALTO: each threshold belongs to the lower tier |
| `Model.NivelMonotono` | src/main/java/net/itinajero/model/Vacante.java:220-230 | if s1 <= s2, the tier of s1 is not above the tier of s2 in the order BAJO < NORMAL < ALTO |
| `Model.TextosDescriptivos` | src/main/java/net/itinajero/model/Vacante.java:194-209 | the labels are "Sueldo malo", "Sueldo normal" and "Buen sueldo", and two tiers have the same label only if they are the same tier |
| `Model.NivelSalarial.TextoDescriptivo` | src/main/java/net/itinajero/model/Vacante.java:196-208 | the label of a tier, as set by the enum constructor and returned by its getter: "Sueldo malo" exactly for BAJO, "Sueldo normal" exactly for NORMAL, "Buen sueldo" exactly for ALTO |
| `Model.NivelSalarial.Ordinal` | src/main/java/net/itinajero/model/Vacante.java:196 | the declaration order of the tiers (Java's `ordinal()`), which is the order monotonicity is stated in: BAJO is 0, ALTO is 2, and NORMAL lies between them |
| `Model.Vacante.constructor` | src/main/java/net/itinajero/model/Vacante.java:63-100 | a new posting has the image "no-image.png", salary 0, and every other reference field null |
| `Model.Vacante.SetId` | src/main/java/net/itinajero/model/Vacante.java:129-131 | the id becomes the given value (so the getter returns it); the other six fields are unchanged |
| `Model.Vacante.SetNombre` | src/main/java/net/itinajero/model/Vacante.java:137-139 | the name becomes the given value; the other six fields are unchanged |
| `Model.Vacante.SetDescripcion` | src/main/java/net/itinajero/model/Vacante.java:145-147 | the description becomes the given value; the other six fields are unchanged |
| `Model.Vacante.SetFecha` | src/main/java/net/itinajero/model/Vacante.java:153-155 | the date becomes the given value; the other six fields are unchanged |
| `Model.Vacante.SetSalario` | src/main/java/net/itinajero/model/Vacante.java:161-163 | the salary becomes the given value; the other six fields are unchanged |
| `Model.Vacante.SetDestacado` | src/main/java/net/itinajero/model/Vacante.java:169-171 | the featured flag becomes the given value (possibly null); the other six fields are unchanged |
| `Model.Vacante.SetImagen` | src/main/java/net/itinajero/model/Vacante.java:177-179 | the image becomes the given value; the other six fields are unchanged |
| `Model.Vacante.GetNivelSalarial` | src/main/java/net/itinajero/model/Vacante.java:220-230 | reads the posting without changing it; it is the tier of the current salary as `NivelDeSalario` defines it, so the threshold and monotonicity lemmas apply to it |
| `Wrappers.ObjectsEquals` | src/main/java/net/itinajero/service/Impl_VacanteService.java:172 | null-safe equality is true exactly when both ids are null or both are the same value |
| `Service.VacantesDePrueba` | src/main/java/net/itinajero/service/Impl_VacanteService.java:89-124 | the reference value of the seed: four postings in insertion order, each with its id, name, description, parsed date, salary, featured flag and image (posting 3 keeps the default image); every one has a date and an image |
| `Service.CrearVacante` | src/main/java/net/itinajero/service/Impl_VacanteService.java:89-96 | a fresh posting has the given id, name, description, date, salary and featured flag, and still the default image |
| `Service.CrearVacantesDePrueba` | src/main/java/net/itinajero/service/Impl_VacanteService.java:85-139 | the try block fails exactly when one of the four date literals fails to parse; on success it yields the four sample postings in order, as fresh, distinct objects |
| `Service.ContenidoDePrueba` | src/main/java/net/itinajero/service/Impl_VacanteService.java:89-124 | the sample postings have ids 1, 2, 3, 4 in order; salaries 14000, 12000, 10500, 7900; images "logo1.png", "logo2.png", the default, "logo4.png"; featured flags 1, 0, 0, 1; names "Ingeniero Civil", "Contador Público", "Ingeniero Eléctrico", "Diseñador Gráfico"; each date parsed from its own literal |
| `Service.NivelesDePrueba` | src/main/java/net/itinajero/service/Impl_VacanteService.java:95-122 | the tiers of the four sample salaries are ALTO, ALTO, ALTO, NORMAL |
| `Service.BuscarPrimeraPorId` | src/main/java/net/itinajero/service/Impl_VacanteService.java:170-178 | the result has at most one element; it is empty exactly when no posting in the list has the id; otherwise it holds the first posting in list order whose id equals the one asked for |
| `Service.PrimeraCoincidenciaUnica` | src/main/java/net/itinajero/service/Impl_VacanteService.java:171-174 | the first-match rule determines the result: two results that both satisfy it are equal, even when ids repeat |
| `Service.BusquedaEnListaSembrada` | src/main/java/net/itinajero/service/Impl_VacanteService.java:129-132 | in a seeded list, searching for id k in 1..4 returns exactly the posting at position k - 1, and any other id (null included) returns an empty list |
| `Service.ImplVacanteService.constructor` | src/main/java/net/itinajero/service/Impl_VacanteService.java:70-143 | always completes; the list holds the four sample postings in order when every date parses, and is empty when any date fails to parse; the postings are fresh objects |
| `Service.ImplVacanteService.BuscarTodas` | src/main/java/net/itinajero/service/Impl_VacanteService.java:157-159 | returns the stored list itself (never null, possibly empty); changes nothing |
| `Service.ImplVacanteService.BuscarPorId` | src/main/java/net/itinajero/service/Impl_VacanteService.java:170-178 | at most one posting, carrying the asked-for id; empty exactly when no stored posting has that id; otherwise the first one in list order; changes nothing |
| `Service.VacanteServiceImpl.constructor` | src/main/java/net/itinajero/service/VacanteService_Impl.java:48-112 | always completes; the `final` list holds the four sample postings in order when every date parses (ids 1 to 4, posting 3 with the default image), and is empty otherwise |
| `Service.VacanteServiceImpl.BuscarTodas` | src/main/java/net/itinajero/service/VacanteService_Impl.java:124-128 | returns the stored list, which is a constant field, so every call returns the same list; changes nothing |
| `Service.VacanteServiceImpl.BuscarPorId` | src/main/java/net/itinajero/service/VacanteService_Impl.java:131-139 | at most one posting, carrying the asked-for id; an empty list, not an error, when the id is absent; the first match in insertion order otherwise; changes nothing |

## Left out

- Getters: in Dafny a getter is a read of the public field (`v.id` is `getId()`), so the getters are not separate members.
- `toString`: it builds a debug string from values that Java's libraries format.
- Logging (`log.error`, `log.info`): output only, with no effect on state.
- `SimpleDateFormat` parsing and the inside of `java.util.Date`: these are library code. The parser is a parameter of the constructors, and a date is an opaque millisecond count.
- IEEE-754 `double` (NaN, -0.0, rounding): the salary is a real number. The code only compares it with the two thresholds.
- The 32-bit width of `Integer`: ids are only compared, never computed with, so unbounded integers behave the same way.
- Null elements in the list: the only lists built hold the four sample postings, so the model's list holds non-null postings. A null element would make `vacante.getId()` throw in the source, and this is not modelled.
- Service.ImplVacanteService.BuscarTodas, and likewise Service.VacanteServiceImpl.BuscarTodas: `buscarTodas` returns the mutable `LinkedList` itself, so a caller could add or remove elements in the store's list. The model returns the list as a value, so this sharing of the list is not captured. The postings in it are still shared objects.
- Service.CrearVacante: in the source, each posting's setters for id, name and description run before that posting's date is parsed. The model parses the date first, then creates the posting and calls its setters in the source order. A parse failure discards every posting built so far, so the difference cannot be observed.
- The controllers, the application bootstrap, the `Itf_VacanteService` interface and Spring's bean wiring: these are routing and framework concerns with no state of their own.
