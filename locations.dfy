/**
 * Colombia's departments and, for ten of them, their main cities, with the lookups the
 * address picker uses and the one piece of state it keeps: the cities on offer.
 */
module Locations {
  import opened Common

  /** A department ("estado" in the code). */
  datatype Estado = Estado(id: string, nombre: string)

  datatype Ciudad = Ciudad(id: string, nombre: string, estadoId: string)

  /** One member of the cities-by-department record: a department id and its cities, in declaration order. */
  datatype CityGroup = CityGroup(key: string, ciudades: seq<Ciudad>)

  /** The departments, in declaration order. */
  const Estados: seq<Estado> := [
    Estado("ANT", "Antioquia"),
    Estado("ATL", "Atlántico"),
    Estado("BOG", "Bogotá D.C."),
    Estado("BOL", "Bolívar"),
    Estado("BOY", "Boyacá"),
    Estado("CAL", "Caldas"),
    Estado("CAQ", "Caquetá"),
    Estado("CAS", "Casanare"),
    Estado("CAU", "Cauca"),
    Estado("CES", "Cesar"),
    Estado("CHO", "Chocó"),
    Estado("COR", "Córdoba"),
    Estado("CUN", "Cundinamarca"),
    Estado("GUA", "Guainía"),
    Estado("GUV", "Guaviare"),
    Estado("HUI", "Huila"),
    Estado("LAG", "La Guajira"),
    Estado("MAG", "Magdalena"),
    Estado("MET", "Meta"),
    Estado("NAR", "Nariño"),
    Estado("NSA", "Norte de Santander"),
    Estado("PUT", "Putumayo"),
    Estado("QUI", "Quindío"),
    Estado("RIS", "Risaralda"),
    Estado("SAP", "San Andrés y Providencia"),
    Estado("SAN", "Santander"),
    Estado("SUC", "Sucre"),
    Estado("TOL", "Tolima"),
    Estado("VAC", "Valle del Cauca"),
    Estado("VAU", "Vaupés"),
    Estado("VIC", "Vichada")
  ]

  /** The cities-by-department record, its members in declaration (and so iteration) order. */
  const CiudadesPorEstado: seq<CityGroup> := [
    CityGroup("BOG", [
      Ciudad("bog-001", "Usaquén", "BOG"),
      Ciudad("bog-002", "Chapinero", "BOG"),
      Ciudad("bog-003", "Santa Fe", "BOG"),
      Ciudad("bog-004", "San Cristóbal", "BOG"),
      Ciudad("bog-005", "Usme", "BOG"),
      Ciudad("bog-006", "Tunjuelito", "BOG"),
      Ciudad("bog-007", "Bosa", "BOG"),
      Ciudad("bog-008", "Kennedy", "BOG"),
      Ciudad("bog-009", "Fontibón", "BOG"),
      Ciudad("bog-010", "Engativá", "BOG"),
      Ciudad("bog-011", "Suba", "BOG"),
      Ciudad("bog-012", "Barrios Unidos", "BOG")
    ]),
    CityGroup("ANT", [
      Ciudad("ant-001", "Medellín", "ANT"),
      Ciudad("ant-002", "Bello", "ANT"),
      Ciudad("ant-003", "Itagüí", "ANT"),
      Ciudad("ant-004", "Envigado", "ANT"),
      Ciudad("ant-005", "Sabaneta", "ANT"),
      Ciudad("ant-006", "La Estrella", "ANT"),
      Ciudad("ant-007", "Caldas", "ANT"),
      Ciudad("ant-008", "Copacabana", "ANT")
    ]),
    CityGroup("VAC", [
      Ciudad("vac-001", "Cali", "VAC"),
      Ciudad("vac-002", "Palmira", "VAC"),
      Ciudad("vac-003", "Buenaventura", "VAC"),
      Ciudad("vac-004", "Tuluá", "VAC"),
      Ciudad("vac-005", "Cartago", "VAC"),
      Ciudad("vac-006", "Buga", "VAC")
    ]),
    CityGroup("ATL", [
      Ciudad("atl-001", "Barranquilla", "ATL"),
      Ciudad("atl-002", "Soledad", "ATL"),
      Ciudad("atl-003", "Malambo", "ATL"),
      Ciudad("atl-004", "Puerto Colombia", "ATL"),
      Ciudad("atl-005", "Galapa", "ATL")
    ]),
    CityGroup("SAN", [
      Ciudad("san-001", "Bucaramanga", "SAN"),
      Ciudad("san-002", "Floridablanca", "SAN"),
      Ciudad("san-003", "Girón", "SAN"),
      Ciudad("san-004", "Piedecuesta", "SAN"),
      Ciudad("san-005", "Barrancabermeja", "SAN")
    ]),
    CityGroup("BOL", [
      Ciudad("bol-001", "Cartagena", "BOL"),
      Ciudad("bol-002", "Magangué", "BOL"),
      Ciudad("bol-003", "Turbaco", "BOL"),
      Ciudad("bol-004", "El Carmen de Bolívar", "BOL")
    ]),
    CityGroup("CUN", [
      Ciudad("cun-001", "Soacha", "CUN"),
      Ciudad("cun-002", "Chía", "CUN"),
      Ciudad("cun-003", "Zipaquirá", "CUN"),
      Ciudad("cun-004", "Facatativá", "CUN"),
      Ciudad("cun-005", "Mosquera", "CUN"),
      Ciudad("cun-006", "Madrid", "CUN")
    ]),
    CityGroup("NSA", [
      Ciudad("nsa-001", "Cúcuta", "NSA"),
      Ciudad("nsa-002", "Los Patios", "NSA"),
      Ciudad("nsa-003", "Villa del Rosario", "NSA"),
      Ciudad("nsa-004", "Ocaña", "NSA")
    ]),
    CityGroup("HUI", [
      Ciudad("hui-001", "Neiva", "HUI"),
      Ciudad("hui-002", "Pitalito", "HUI"),
      Ciudad("hui-003", "Garzón", "HUI"),
      Ciudad("hui-004", "La Plata", "HUI")
    ]),
    CityGroup("RIS", [
      Ciudad("ris-001", "Pereira", "RIS"),
      Ciudad("ris-002", "Dosquebradas", "RIS"),
      Ciudad("ris-003", "Santa Rosa de Cabal", "RIS"),
      Ciudad("ris-004", "La Virginia", "RIS")
    ])
  ]
  /** `Array.prototype.find` over the departments. */
  function FindEstado(s: seq<Estado>, id: string): (r: Option<Estado>)
    ensures r.Some? ==> r.value in s && r.value.id == id
    ensures r.None? <==> forall i :: 0 <= i < |s| ==> s[i].id != id
    ensures r.Some? ==> exists k :: 0 <= k < |s| && s[k] == r.value && forall j :: 0 <= j < k ==> s[j].id != id
  {
    if s == [] then None
    else if s[0].id == id then Some(s[0])
    else
      var r := FindEstado(s[1..], id);
      assert forall i :: 1 <= i < |s| ==> s[i] == s[1..][i - 1];
      assert r.Some? ==> exists k :: 0 <= k < |s| && s[k] == r.value && forall j :: 0 <= j < k ==> s[j].id != id by {
        if r.Some? {
          var k :| 0 <= k < |s| - 1 && s[1..][k] == r.value && forall j :: 0 <= j < k ==> s[1..][j].id != id;
          assert s[k + 1] == r.value && forall j :: 0 <= j < k + 1 ==> s[j].id != id;
        }
      }
      r
  }

  /** `Array.prototype.find` over one department's cities. */
  function FindCiudad(s: seq<Ciudad>, id: string): (r: Option<Ciudad>)
    ensures r.Some? ==> r.value in s && r.value.id == id
    ensures r.None? <==> forall i :: 0 <= i < |s| ==> s[i].id != id
    ensures r.Some? ==> exists k :: 0 <= k < |s| && s[k] == r.value && forall j :: 0 <= j < k ==> s[j].id != id
  {
    if s == [] then None
    else if s[0].id == id then Some(s[0])
    else
      var r := FindCiudad(s[1..], id);
      assert r.Some? ==> exists k :: 0 <= k < |s| && s[k] == r.value && forall j :: 0 <= j < k ==> s[j].id != id by {
        if r.Some? {
          var k :| 0 <= k < |s| - 1 && s[1..][k] == r.value && forall j :: 0 <= j < k ==> s[1..][j].id != id;
          assert s[k + 1] == r.value && forall j :: 0 <= j < k + 1 ==> s[j].id != id;
        }
      }
      r
  }

  /** No two departments share an id. */
  lemma DepartmentIdsUnique()
    ensures forall i, j :: 0 <= i < j < |Estados| ==> Estados[i].id != Estados[j].id
  {
    DepartmentInitials();
    EarlyDepartmentIdsUnique();
    LateDepartmentIdsUnique();
  }

  /** The first sixteen department ids start before 'L' in the alphabet and the rest do not. */
  lemma DepartmentInitials()
    ensures forall i :: 0 <= i < 16 ==> Estados[i].id != [] && Estados[i].id[0] < 'L'
    ensures forall i :: 16 <= i < |Estados| ==> Estados[i].id != [] && Estados[i].id[0] >= 'L'
  {
  }

  lemma EarlyDepartmentIdsUnique()
    ensures forall i, j :: 0 <= i < j < 16 ==> Estados[i].id != Estados[j].id
  {
  }

  lemma LateDepartmentIdsUnique()
    ensures forall i, j :: 16 <= i < j < |Estados| ==> Estados[i].id != Estados[j].id
  {
  }

  /** Every department and every city has a non-empty name. */
  lemma NamesNonEmpty()
    ensures forall i :: 0 <= i < |Estados| ==> Estados[i].nombre != ""
    ensures forall k, i :: 0 <= k < |CiudadesPorEstado| && 0 <= i < |CiudadesPorEstado[k].ciudades| ==>
              CiudadesPorEstado[k].ciudades[i].nombre != ""
  {
  }

  /** No two members of the cities-by-department record share a key. */
  lemma GroupKeysUnique()
    ensures forall i, j :: 0 <= i < j < |CiudadesPorEstado| ==> CiudadesPorEstado[i].key != CiudadesPorEstado[j].key
  {
  }

  /** `estadoId` is the id of one of the departments. */
  predicate IsDepartmentId(estadoId: string) {
    exists i :: 0 <= i < |Estados| && Estados[i].id == estadoId
  }

  /** Every key of the cities-by-department record is the id of a department. */
  lemma GroupKeysAreDepartments()
    ensures forall k :: 0 <= k < |CiudadesPorEstado| ==> IsDepartmentId(CiudadesPorEstado[k].key)
  {
    GroupsKeyedAndFilled();
    forall k | 0 <= k < |CiudadesPorEstado| {
      KeyedIsDepartment(CiudadesPorEstado[k].key);
    }
  }

  /** Each of the ten keyed departments is one of the departments. */
  lemma KeyedIsDepartment(estadoId: string)
    requires estadoId in KeyedDepartments
    ensures IsDepartmentId(estadoId)
  {
    var i := if estadoId == "ANT" || estadoId == "ATL" || estadoId == "BOG" || estadoId == "BOL" || estadoId == "CUN"
             then FirstDepartmentPosition(estadoId) else LastDepartmentPosition(estadoId);
    assert 0 <= i < |Estados| && Estados[i].id == estadoId;
  }

  /** Where five of the keyed departments sit among the departments. */
  function FirstDepartmentPosition(estadoId: string): (i: nat)
    requires estadoId == "ANT" || estadoId == "ATL" || estadoId == "BOG" || estadoId == "BOL" || estadoId == "CUN"
    ensures i < |Estados| && Estados[i].id == estadoId
  {
    if estadoId == "ANT" then 0 else if estadoId == "ATL" then 1 else if estadoId == "BOG" then 2
    else if estadoId == "BOL" then 3 else 12
  }

  /** Where the other five keyed departments sit among the departments. */
  function LastDepartmentPosition(estadoId: string): (i: nat)
    requires estadoId == "HUI" || estadoId == "NSA" || estadoId == "RIS" || estadoId == "SAN" || estadoId == "VAC"
    ensures i < |Estados| && Estados[i].id == estadoId
  {
    if estadoId == "HUI" then 15 else if estadoId == "NSA" then 20 else if estadoId == "RIS" then 23
    else if estadoId == "SAN" then 25 else 28
  }

  /** Every city is filed under the department it names. */
  lemma CitiesFiledUnderTheirDepartment()
    ensures forall k, i :: 0 <= k < |CiudadesPorEstado| && 0 <= i < |CiudadesPorEstado[k].ciudades| ==>
              CiudadesPorEstado[k].ciudades[i].estadoId == CiudadesPorEstado[k].key
  {
  }

  /** The three-letter prefix shared by the city ids of each member, in member order. */
  const CityIdPrefixes: seq<string> := ["bog", "ant", "vac", "atl", "san", "bol", "cun", "nsa", "hui", "ris"]

  lemma CityIdsCarryPrefix()
    ensures |CityIdPrefixes| == |CiudadesPorEstado|
    ensures forall k, i :: 0 <= k < |CiudadesPorEstado| && 0 <= i < |CiudadesPorEstado[k].ciudades| ==>
              |CiudadesPorEstado[k].ciudades[i].id| >= 3 &&
              CiudadesPorEstado[k].ciudades[i].id[..3] == CityIdPrefixes[k]
  {
  }

  lemma CityIdPrefixesUnique()
    ensures forall i, j :: 0 <= i < j < |CityIdPrefixes| ==> CityIdPrefixes[i] != CityIdPrefixes[j]
  {
  }

  /** Within one member of the record, no two cities share an id. */
  lemma CityIdsUniqueWithin(k: nat)
    requires k < |CiudadesPorEstado|
    ensures forall i, j :: 0 <= i < j < |CiudadesPorEstado[k].ciudades| ==>
              CiudadesPorEstado[k].ciudades[i].id != CiudadesPorEstado[k].ciudades[j].id
  {
    if k < 2 {
      LargeGroupIdsUnique(k);
    } else {
      SmallGroupIdsUnique(k);
    }
  }

  lemma LargeGroupIdsUnique(k: nat)
    requires k < 2
    ensures forall i, j :: 0 <= i < j < |CiudadesPorEstado[k].ciudades| ==>
              CiudadesPorEstado[k].ciudades[i].id != CiudadesPorEstado[k].ciudades[j].id
  {
  }

  lemma SmallGroupIdsUnique(k: nat)
    requires 2 <= k < |CiudadesPorEstado|
    ensures forall i, j :: 0 <= i < j < |CiudadesPorEstado[k].ciudades| ==>
              CiudadesPorEstado[k].ciudades[i].id != CiudadesPorEstado[k].ciudades[j].id
  {
  }

  /** No two cities anywhere in the table share an id. */
  lemma CityIdsUnique()
    ensures forall k1, i1, k2, i2 ::
              0 <= k1 < |CiudadesPorEstado| && 0 <= i1 < |CiudadesPorEstado[k1].ciudades| &&
              0 <= k2 < |CiudadesPorEstado| && 0 <= i2 < |CiudadesPorEstado[k2].ciudades| &&
              CiudadesPorEstado[k1].ciudades[i1].id == CiudadesPorEstado[k2].ciudades[i2].id ==>
              k1 == k2 && i1 == i2
  {
    CityIdsCarryPrefix();
    CityIdPrefixesUnique();
    forall k1, i1, k2, i2 |
      0 <= k1 < |CiudadesPorEstado| && 0 <= i1 < |CiudadesPorEstado[k1].ciudades| &&
      0 <= k2 < |CiudadesPorEstado| && 0 <= i2 < |CiudadesPorEstado[k2].ciudades| &&
      CiudadesPorEstado[k1].ciudades[i1].id == CiudadesPorEstado[k2].ciudades[i2].id
      ensures k1 == k2 && i1 == i2
    {
      assert CityIdPrefixes[k1] == CityIdPrefixes[k2];
      CityIdsUniqueWithin(k1);
    }
  }

  /** `ciudadesPorEstado[estadoId] || []`: the list of the member keyed `key`, or the empty list. */
  function GroupLookup(groups: seq<CityGroup>, key: string): (r: seq<Ciudad>)
    ensures (forall k :: 0 <= k < |groups| ==> groups[k].key != key) ==> r == []
    ensures r != [] ==> exists k :: 0 <= k < |groups| && groups[k].key == key && groups[k].ciudades == r
    ensures forall k ::
              (0 <= k < |groups| && groups[k].key == key && forall j :: 0 <= j < k ==> groups[j].key != key) ==>
              r == groups[k].ciudades
  {
    if groups == [] then []
    else if groups[0].key == key then groups[0].ciudades
    else
      var r := GroupLookup(groups[1..], key);
      assert forall k :: 1 <= k < |groups| ==> groups[k] == groups[1..][k - 1];
      r
  }

  /** `getCiudadesPorEstado`. */
  function GetCiudadesPorEstado(estadoId: string): (r: seq<Ciudad>)
    ensures forall k :: 0 <= k < |CiudadesPorEstado| && CiudadesPorEstado[k].key == estadoId ==>
              r == CiudadesPorEstado[k].ciudades
    ensures (forall k :: 0 <= k < |CiudadesPorEstado| ==> CiudadesPorEstado[k].key != estadoId) ==> r == []
    ensures FiledUnder(r, estadoId)
  {
    LookupKeyed(estadoId);
    LookupFiled(estadoId);
    GroupLookup(CiudadesPorEstado, estadoId)
  }

  lemma LookupKeyed(estadoId: string)
    ensures forall k :: 0 <= k < |CiudadesPorEstado| && CiudadesPorEstado[k].key == estadoId ==>
              GroupLookup(CiudadesPorEstado, estadoId) == CiudadesPorEstado[k].ciudades
  {
    GroupKeysUnique();
  }

  /** Every city of the list names the department `estadoId`. */
  predicate FiledUnder(ciudades: seq<Ciudad>, estadoId: string) {
    forall i :: 0 <= i < |ciudades| ==> ciudades[i].estadoId == estadoId
  }

  lemma LookupFiled(estadoId: string)
    ensures FiledUnder(GroupLookup(CiudadesPorEstado, estadoId), estadoId)
  {
    var r := GroupLookup(CiudadesPorEstado, estadoId);
    if r != [] {
      var k :| 0 <= k < |CiudadesPorEstado| && CiudadesPorEstado[k].key == estadoId && CiudadesPorEstado[k].ciudades == r;
      CitiesFiledUnderTheirDepartment();
    }
  }

  /** The ten departments that have a city list. */
  const KeyedDepartments: set<string> := {"BOG", "ANT", "VAC", "ATL", "SAN", "BOL", "CUN", "NSA", "HUI", "RIS"}

  /** A department has cities on offer exactly when it is one of the ten keyed ones. */
  lemma {:induction false} CityGroupsKeyed(estadoId: string)
    ensures GetCiudadesPorEstado(estadoId) != [] <==> estadoId in KeyedDepartments
  {
    GroupsKeyedAndFilled();
    if estadoId in KeyedDepartments {
      var k := KeyPosition(estadoId);
      assert CiudadesPorEstado[k].key == estadoId;
    }
  }

  /** Every member of the record is keyed by one of the ten and holds at least one city. */
  lemma GroupsKeyedAndFilled()
    ensures forall k :: 0 <= k < |CiudadesPorEstado| ==>
              CiudadesPorEstado[k].key in KeyedDepartments && CiudadesPorEstado[k].ciudades != []
  {
  }

  /** Where each of the ten keyed departments sits in the record. */
  function KeyPosition(estadoId: string): (k: nat)
    requires estadoId in KeyedDepartments
    ensures k < |CiudadesPorEstado| && CiudadesPorEstado[k].key == estadoId
  {
    if estadoId == "BOG" then 0 else if estadoId == "ANT" then 1 else if estadoId == "VAC" then 2
    else if estadoId == "ATL" then 3 else if estadoId == "SAN" then 4 else if estadoId == "BOL" then 5
    else if estadoId == "CUN" then 6 else if estadoId == "NSA" then 7 else if estadoId == "HUI" then 8
    else 9
  }

  /** `getNombreEstado`: the name of the department with that id, or the empty string. */
  function GetNombreEstado(estadoId: string): (r: string)
    ensures r == "" <==> forall i :: 0 <= i < |Estados| ==> Estados[i].id != estadoId
    ensures forall i :: 0 <= i < |Estados| && Estados[i].id == estadoId ==> r == Estados[i].nombre
  {
    DepartmentIdsUnique();
    NamesNonEmpty();
    match FindEstado(Estados, estadoId)
    case Some(e) => e.nombre
    case None => ""
  }

  /**
   * `getNombreCiudad`: scans the departments in order and returns the name of the first city
   * with that id. Since city ids are unique, the answer is the name of THE city with that id.
   */
  method GetNombreCiudad(ciudadId: string) returns (nombre: string)
    ensures forall k, i ::
              (0 <= k < |CiudadesPorEstado| && 0 <= i < |CiudadesPorEstado[k].ciudades| &&
               CiudadesPorEstado[k].ciudades[i].id == ciudadId) ==>
              nombre == CiudadesPorEstado[k].ciudades[i].nombre
    ensures nombre == "" <==>
              forall k, i :: 0 <= k < |CiudadesPorEstado| && 0 <= i < |CiudadesPorEstado[k].ciudades| ==>
                CiudadesPorEstado[k].ciudades[i].id != ciudadId
  {
    CityIdsUnique();
    NamesNonEmpty();
    for k := 0 to |CiudadesPorEstado|
      invariant forall j, i :: 0 <= j < k && 0 <= i < |CiudadesPorEstado[j].ciudades| ==>
                  CiudadesPorEstado[j].ciudades[i].id != ciudadId
    {
      var ciudad := FindCiudad(CiudadesPorEstado[k].ciudades, ciudadId);
      if ciudad.Some? {
        return ciudad.value.nombre;
      }
    }
    return "";
  }

  /** `cargarCiudadesAsync`, without its simulated delay. */
  method CargarCiudadesAsync(estadoId: string) returns (ciudades: seq<Ciudad>)
    ensures ciudades == GetCiudadesPorEstado(estadoId)
  {
    ciudades := GetCiudadesPorEstado(estadoId);
  }

  /** The picker's state: the cities offered for the department chosen last. */
  class LocationPicker {
    var ciudadesDisponibles: seq<Ciudad>

    constructor ()
      ensures ciudadesDisponibles == []
    {
      ciudadesDisponibles := [];
    }

    /** `actualizarCiudades`. */
    method ActualizarCiudades(estadoId: string)
      modifies this`ciudadesDisponibles
      ensures ciudadesDisponibles == GetCiudadesPorEstado(estadoId)
      ensures FiledUnder(ciudadesDisponibles, estadoId)
    {
      ciudadesDisponibles := GetCiudadesPorEstado(estadoId);
    }
  }
}
