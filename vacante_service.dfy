/** The in-memory store of postings behind the site: a list seeded with four
    sample postings when the service is built, listed whole, and searched by
    id. The repository has two copies of this service; both are modelled here
    on the same seeding and search. */
module Service {
  import opened Wrappers
  import opened Model

  /** The date literals of the four sample postings, in `dd-MM-yyyy` form. */
  const FechaVacante1: string := "01-01-2025"
  const FechaVacante2: string := "01-02-2025"
  const FechaVacante3: string := "01-03-2025"
  const FechaVacante4: string := "01-04-2025"

  /** The names and descriptions of the four sample postings. */
  const NombreVacante1: string := "Ingeniero Civil"
  const DescripcionVacante1: string := "Solicitamos para el equipo de construcción de puente peatonal"
  const NombreVacante2: string := "Contador Público"
  const DescripcionVacante2: string := "Contador titulado con experiencia en contabilidades de costo"
  const NombreVacante3: string := "Ingeniero Eléctrico"
  const DescripcionVacante3: string := "Ingeniero eléctrico con experiencia en instalaciones industriales"
  const NombreVacante4: string := "Diseñador Gráfico"
  const DescripcionVacante4: string := "Diseñador gráfico con experiencia en diseño digital y branding"

  /** The date parser succeeds on all four sample dates. */
  predicate FechasValidas(parse: string -> Option<Date>)
  {
    parse(FechaVacante1).Some? && parse(FechaVacante2).Some?
    && parse(FechaVacante3).Some? && parse(FechaVacante4).Some?
  }

  /** The four sample postings, in the order they are added. Posting 3 has no
      image set and keeps the default one. Every posting has a date and an
      image. */
  function VacantesDePrueba(parse: string -> Option<Date>): (r: seq<VacanteState>)
    requires FechasValidas(parse)
    ensures |r| == 4
    ensures forall i :: 0 <= i < 4 ==> r[i].fecha.Some? && r[i].imagen.Some?
  {
    [ VacanteState(Some(1), Some(NombreVacante1), Some(DescripcionVacante1),
        parse(FechaVacante1), 14000.0, Some(1), Some("logo1.png")),
      VacanteState(Some(2), Some(NombreVacante2), Some(DescripcionVacante2),
        parse(FechaVacante2), 12000.0, Some(0), Some("logo2.png")),
      VacanteState(Some(3), Some(NombreVacante3), Some(DescripcionVacante3),
        parse(FechaVacante3), 10500.0, Some(0), Some(ImagenPorDefecto)),
      VacanteState(Some(4), Some(NombreVacante4), Some(DescripcionVacante4),
        parse(FechaVacante4), 7900.0, Some(1), Some("logo4.png")) ]
  }

  /** The list a service holds once built: the four sample postings, as
      distinct objects, when every date parses, and nothing at all otherwise. */
  ghost predicate Sembrada(lista: seq<Vacante>, parse: string -> Option<Date>)
    reads lista
  {
    if FechasValidas(parse) then
      |lista| == 4
      && lista[0].State() == VacantesDePrueba(parse)[0]
      && lista[1].State() == VacantesDePrueba(parse)[1]
      && lista[2].State() == VacantesDePrueba(parse)[2]
      && lista[3].State() == VacantesDePrueba(parse)[3]
      && lista[0] != lista[1] && lista[0] != lista[2] && lista[0] != lista[3]
      && lista[1] != lista[2] && lista[1] != lista[3] && lista[2] != lista[3]
    else
      lista == []
  }

  /** What a search by id returns: at most one posting; none exactly when no
      stored posting has that id; otherwise the first one in list order that
      has it. */
  ghost predicate PrimeraCoincidencia(lista: seq<Vacante>, idVacante: Option<int>, r: seq<Vacante>)
    reads lista
  {
    |r| <= 1
    && (r == [] <==> forall k :: 0 <= k < |lista| ==> lista[k].id != idVacante)
    && (r != [] ==>
          exists k :: 0 <= k < |lista| && r[0] == lista[k] && lista[k].id == idVacante
                      && forall j :: 0 <= j < k ==> lista[j].id != idVacante)
  }

  /** The answer of a search by id is determined by the list and the id. */
  lemma PrimeraCoincidenciaUnica(lista: seq<Vacante>, idVacante: Option<int>, r1: seq<Vacante>, r2: seq<Vacante>)
    requires PrimeraCoincidencia(lista, idVacante, r1)
    requires PrimeraCoincidencia(lista, idVacante, r2)
    ensures r1 == r2
  {
  }

  /** The sample postings carry ids 1 to 4 in order, the fixed salaries,
      images, featured flags and names, and a date parsed from their own
      literal. */
  lemma ContenidoDePrueba(parse: string -> Option<Date>)
    requires FechasValidas(parse)
    ensures |VacantesDePrueba(parse)| == 4
    ensures forall i :: 0 <= i < 4 ==> VacantesDePrueba(parse)[i].id == Some(i + 1)
    ensures [VacantesDePrueba(parse)[0].salario, VacantesDePrueba(parse)[1].salario,
             VacantesDePrueba(parse)[2].salario, VacantesDePrueba(parse)[3].salario]
            == [14000.0, 12000.0, 10500.0, 7900.0]
    ensures [VacantesDePrueba(parse)[0].imagen, VacantesDePrueba(parse)[1].imagen,
             VacantesDePrueba(parse)[2].imagen, VacantesDePrueba(parse)[3].imagen]
            == [Some("logo1.png"), Some("logo2.png"), Some(ImagenPorDefecto), Some("logo4.png")]
    ensures [VacantesDePrueba(parse)[0].fecha, VacantesDePrueba(parse)[1].fecha,
             VacantesDePrueba(parse)[2].fecha, VacantesDePrueba(parse)[3].fecha]
            == [parse(FechaVacante1), parse(FechaVacante2), parse(FechaVacante3), parse(FechaVacante4)]
    ensures [VacantesDePrueba(parse)[0].destacado, VacantesDePrueba(parse)[1].destacado,
             VacantesDePrueba(parse)[2].destacado, VacantesDePrueba(parse)[3].destacado]
            == [Some(1), Some(0), Some(0), Some(1)]
    ensures [VacantesDePrueba(parse)[0].nombre, VacantesDePrueba(parse)[1].nombre,
             VacantesDePrueba(parse)[2].nombre, VacantesDePrueba(parse)[3].nombre]
            == [Some("Ingeniero Civil"), Some("Contador Público"),
                Some("Ingeniero Eléctrico"), Some("Diseñador Gráfico")]
  {
  }

  /** The tiers of the sample postings are high, high, high and normal. */
  lemma NivelesDePrueba(parse: string -> Option<Date>)
    requires FechasValidas(parse)
    ensures [NivelDeSalario(VacantesDePrueba(parse)[0].salario), NivelDeSalario(VacantesDePrueba(parse)[1].salario),
             NivelDeSalario(VacantesDePrueba(parse)[2].salario), NivelDeSalario(VacantesDePrueba(parse)[3].salario)]
            == [Alto, Alto, Alto, Normal]
  {
  }

  /** In a seeded list a search for id `x` finds exactly one posting when `x`
      is 1 to 4, the one at position x - 1, and none for any other id. */
  lemma BusquedaEnListaSembrada(lista: seq<Vacante>, parse: string -> Option<Date>, x: Option<int>, r: seq<Vacante>)
    requires Sembrada(lista, parse) && FechasValidas(parse)
    requires PrimeraCoincidencia(lista, x, r)
    ensures x in {Some(1), Some(2), Some(3), Some(4)} ==> r == [lista[x.value - 1]]
    ensures x !in {Some(1), Some(2), Some(3), Some(4)} ==> r == []
  {
  }

  /** One sample posting as the seeding code fills it in: a new posting and
      the setters for id, name, description, date, salary and featured flag,
      in that order. The image is left at its default. */
  method CrearVacante(id: int, nombre: string, descripcion: string, fecha: Date, salario: real, destacado: int)
    returns (v: Vacante)
    ensures fresh(v)
    ensures v.State() == VacanteState(Some(id), Some(nombre), Some(descripcion), Some(fecha),
                                      salario, Some(destacado), Some(ImagenPorDefecto))
  {
    v := new Vacante();
    v.SetId(Some(id));
    v.SetNombre(Some(nombre));
    v.SetDescripcion(Some(descripcion));
    v.SetFecha(Some(fecha));
    v.SetSalario(salario);
    v.SetDestacado(Some(destacado));
  }

  /** The sample postings as the constructors build them, inside one `try`:
      all four are built, each date parsed, before any is added, so a parse
      failure (`None`) abandons all four. */
  method CrearVacantesDePrueba(parse: string -> Option<Date>) returns (r: Option<seq<Vacante>>)
    ensures r.None? <==> !FechasValidas(parse)
    ensures r.Some? ==> Sembrada(r.value, parse)
    ensures r.Some? ==> forall v :: v in r.value ==> fresh(v)
  {
    var fecha1 := parse(FechaVacante1);
    if fecha1.None? { return None; }
    var vacante1 := CrearVacante(1, NombreVacante1,
      DescripcionVacante1, fecha1.value, 14000.0, 1);
    vacante1.SetImagen(Some("logo1.png"));

    var fecha2 := parse(FechaVacante2);
    if fecha2.None? { return None; }
    var vacante2 := CrearVacante(2, NombreVacante2,
      DescripcionVacante2, fecha2.value, 12000.0, 0);
    vacante2.SetImagen(Some("logo2.png"));

    var fecha3 := parse(FechaVacante3);
    if fecha3.None? { return None; }
    var vacante3 := CrearVacante(3, NombreVacante3,
      DescripcionVacante3, fecha3.value, 10500.0, 0);
    // no image is set: the posting keeps the default one

    var fecha4 := parse(FechaVacante4);
    if fecha4.None? { return None; }
    var vacante4 := CrearVacante(4, NombreVacante4,
      DescripcionVacante4, fecha4.value, 7900.0, 1);
    vacante4.SetImagen(Some("logo4.png"));

    ghost var esperadas := VacantesDePrueba(parse);
    assert vacante1.State() == esperadas[0];
    assert vacante2.State() == esperadas[1];
    assert vacante3.State() == esperadas[2];
    assert vacante4.State() == esperadas[3];
    r := Some([vacante1, vacante2, vacante3, vacante4]);
  }

  /** The search both services run: walk the list in order and answer with
      the first posting whose id equals the one given (null-safe), or with an
      empty list. */
  method BuscarPrimeraPorId(lista: seq<Vacante>, idVacante: Option<int>) returns (r: seq<Vacante>)
    ensures PrimeraCoincidencia(lista, idVacante, r)
  {
    for i := 0 to |lista|
      invariant forall j :: 0 <= j < i ==> lista[j].id != idVacante
    {
      var vacante := lista[i];
      if ObjectsEquals(vacante.id, idVacante) {
        return [vacante];
      }
    }
    return [];
  }

  /** The first copy of the service. Its list is an ordinary field. */
  class ImplVacanteService {
    var listaVacantes: seq<Vacante>

    /** Starts from an empty list and adds the four sample postings, unless a
        date fails to parse; that failure is caught, so the constructor always
        completes. */
    constructor (parse: string -> Option<Date>)
      ensures Sembrada(listaVacantes, parse)
      ensures forall v :: v in listaVacantes ==> fresh(v)
    {
      listaVacantes := [];
      new;
      var creadas := CrearVacantesDePrueba(parse);
      if creadas.Some? {
        listaVacantes := listaVacantes + creadas.value;
      }
    }

    /** The stored list itself, possibly empty. */
    method BuscarTodas() returns (r: seq<Vacante>)
      ensures r == listaVacantes
    {
      r := listaVacantes;
    }

    /** The first stored posting with the given id, or nothing. */
    method BuscarPorId(idVacante: Option<int>) returns (r: seq<Vacante>)
      ensures PrimeraCoincidencia(listaVacantes, idVacante, r)
    {
      r := BuscarPrimeraPorId(listaVacantes, idVacante);
    }
  }

  /** The second copy of the service. Its list is `final`: fixed once built. */
  class VacanteServiceImpl {
    const listaVacantes: seq<Vacante>

    /** Adds the four sample postings, unless a date fails to parse; that
        failure is caught, so the constructor always completes. */
    constructor (parse: string -> Option<Date>)
      ensures Sembrada(listaVacantes, parse)
      ensures forall v :: v in listaVacantes ==> fresh(v)
    {
      var lista: seq<Vacante> := [];
      var creadas := CrearVacantesDePrueba(parse);
      if creadas.Some? {
        lista := lista + creadas.value;
      }
      listaVacantes := lista;
    }

    /** The stored list itself: the same one on every call. */
    method BuscarTodas() returns (r: seq<Vacante>)
      ensures r == listaVacantes
    {
      r := listaVacantes;
    }

    /** The first stored posting with the given id, or nothing. */
    method BuscarPorId(idVacante: Option<int>) returns (r: seq<Vacante>)
      ensures PrimeraCoincidencia(listaVacantes, idVacante, r)
    {
      r := BuscarPrimeraPorId(listaVacantes, idVacante);
    }
  }
}
