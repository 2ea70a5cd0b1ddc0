/** The job posting (`Vacante`) of the employment site: its fields, their
    setters, the default image, and the classification of its salary into
    three tiers. */
module Model {
  import opened Wrappers

  /** A `java.util.Date`: a point in time, in milliseconds since the epoch. */
  datatype Date = Date(millis: int)

  /** The image every posting has until one is set. */
  const ImagenPorDefecto: string := "no-image.png"

  /** Salaries up to and including this value are low. */
  const UmbralSalarioBajo: real := 2000.0
  /** Salaries above the low threshold and up to and including this one are normal. */
  const UmbralSalarioNormal: real := 8000.0

  /** The three salary tiers, in the order they are declared. */
  datatype NivelSalarial = Bajo | Normal | Alto {

    /** The label shown for the tier; each label names exactly one tier. */
    function TextoDescriptivo(): (r: string)
      ensures r == "Sueldo malo" <==> this == Bajo
      ensures r == "Sueldo normal" <==> this == Normal
      ensures r == "Buen sueldo" <==> this == Alto
    {
      match this
      case Bajo => "Sueldo malo"
      case Normal => "Sueldo normal"
      case Alto => "Buen sueldo"
    }

    /** Position of the tier in its declaration (Java's `ordinal()`): BAJO
        first, then NORMAL, then ALTO. */
    function Ordinal(): (r: nat)
      ensures r < 3
      ensures r == 0 <==> this == Bajo
      ensures r == 2 <==> this == Alto
    {
      match this
      case Bajo => 0
      case Normal => 1
      case Alto => 2
    }
  }

  /** The tier of a salary. Each threshold belongs to the lower tier. */
  function NivelDeSalario(salario: real): (r: NivelSalarial)
    ensures r == Bajo <==> salario <= UmbralSalarioBajo
    ensures r == Normal <==> UmbralSalarioBajo < salario <= UmbralSalarioNormal
    ensures r == Alto <==> UmbralSalarioNormal < salario
  {
    if salario <= UmbralSalarioBajo then Bajo
    else if salario <= UmbralSalarioNormal then Normal
    else Alto
  }

  /** The exact boundary values and the values just past them. */
  lemma NivelEnLosUmbrales()
    ensures NivelDeSalario(2000.0) == Bajo
    ensures NivelDeSalario(2000.01) == Normal
    ensures NivelDeSalario(8000.0) == Normal
    ensures NivelDeSalario(8000.01) == Alto
  {
  }

  /** A higher salary never has a lower tier. */
  lemma NivelMonotono(s1: real, s2: real)
    requires s1 <= s2
    ensures NivelDeSalario(s1).Ordinal() <= NivelDeSalario(s2).Ordinal()
  {
  }

  /** Every tier has its own label, and the labels are the fixed ones. */
  lemma TextosDescriptivos(a: NivelSalarial, b: NivelSalarial)
    ensures Bajo.TextoDescriptivo() == "Sueldo malo"
    ensures Normal.TextoDescriptivo() == "Sueldo normal"
    ensures Alto.TextoDescriptivo() == "Buen sueldo"
    ensures a.TextoDescriptivo() == b.TextoDescriptivo() <==> a == b
  {
  }

  /** The value of all the fields of a posting at one moment. */
  datatype VacanteState = VacanteState(
    id: Option<int>,
    nombre: Option<string>,
    descripcion: Option<string>,
    fecha: Option<Date>,
    salario: real,
    destacado: Option<int>,
    imagen: Option<string>)

  /** A posting. Reading a field is its getter; each setter writes one field. */
  class Vacante {
    var id: Option<int>
    var nombre: Option<string>
    var descripcion: Option<string>
    var fecha: Option<Date>
    var salario: real
    var destacado: Option<int>
    var imagen: Option<string>

    /** All fields at once. */
    function State(): (r: VacanteState)
      reads this
    {
      VacanteState(id, nombre, descripcion, fecha, salario, destacado, imagen)
    }

    /** A new posting: every reference field null except the image, which is
        the default one, and a salary of zero. */
    constructor ()
      ensures id == None && nombre == None && descripcion == None && fecha == None
      ensures salario == 0.0 && destacado == None
      ensures imagen == Some(ImagenPorDefecto)
    {
      id, nombre, descripcion, fecha := None, None, None, None;
      salario, destacado := 0.0, None;
      imagen := Some(ImagenPorDefecto);
    }

    method SetId(id: Option<int>)
      modifies this
      ensures this.id == id
      ensures State() == old(State()).(id := id)
    {
      this.id := id;
    }

    method SetNombre(nombre: Option<string>)
      modifies this
      ensures this.nombre == nombre
      ensures State() == old(State()).(nombre := nombre)
    {
      this.nombre := nombre;
    }

    method SetDescripcion(descripcion: Option<string>)
      modifies this
      ensures this.descripcion == descripcion
      ensures State() == old(State()).(descripcion := descripcion)
    {
      this.descripcion := descripcion;
    }

    method SetFecha(fecha: Option<Date>)
      modifies this
      ensures this.fecha == fecha
      ensures State() == old(State()).(fecha := fecha)
    {
      this.fecha := fecha;
    }

    method SetSalario(salario: real)
      modifies this
      ensures this.salario == salario
      ensures State() == old(State()).(salario := salario)
    {
      this.salario := salario;
    }

    method SetDestacado(destacado: Option<int>)
      modifies this
      ensures this.destacado == destacado
      ensures State() == old(State()).(destacado := destacado)
    {
      this.destacado := destacado;
    }

    method SetImagen(imagen: Option<string>)
      modifies this
      ensures this.imagen == imagen
      ensures State() == old(State()).(imagen := imagen)
    {
      this.imagen := imagen;
    }

    /** The tier of the current salary; reading it changes nothing. */
    function GetNivelSalarial(): (r: NivelSalarial)
      reads this
      ensures r == NivelDeSalario(salario)
    {
      NivelDeSalario(salario)
    }
  }
}
