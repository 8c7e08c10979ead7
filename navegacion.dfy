// The dashboard layout: the session check that loads the user's profile, the
// sidebar entries each role may see, and the title the top bar shows for the
// current route.

module Navegacion {
  import opened Tipos
  import opened Listas

  /** An entry of the sidebar and the roles that see it. */
  datatype ItemNav = ItemNav(href: string, icono: string, etiqueta: string, roles: seq<Rol>)

  const Todos: seq<Rol> := [Administrador, Operador, SoloLectura]
  const Personal: seq<Rol> := [Administrador, Operador]
  const SoloAdmin: seq<Rol> := [Administrador]

  /** `NAV_ITEMS` */
  const NavItems: seq<ItemNav> := [
    ItemNav("/dashboard", "⚡", "Alertas", Todos),
    ItemNav("/dashboard/alquileres", "🎭", "Alquileres", Todos),
    ItemNav("/dashboard/devolucion", "↩️", "Devoluciones", Personal),
    ItemNav("/dashboard/lavanderia", "🧺", "Lavandería", Personal),
    ItemNav("/dashboard/catalogo", "📦", "Catálogo", Todos),
    ItemNav("/dashboard/clientes", "👥", "Clientes", Personal),
    ItemNav("/dashboard/proveedores", "🔍", "Proveedores", SoloAdmin),
    ItemNav("/dashboard/reportes", "📊", "Reportes", SoloAdmin),
    ItemNav("/dashboard/usuarios", "🔑", "Usuarios", SoloAdmin)
  ]

  /** `ROL_LABELS` */
  function EtiquetaRol(r: Rol): string {
    match r
    case Administrador => "Admin"
    case Operador => "Operador"
    case SoloLectura => "Lectura"
  }

  // ---- Visible entries ----------------------------------------------------------

  /** `item => item.roles.includes(rol)` */
  function VePor(rol: Rol): ItemNav -> bool {
    (it: ItemNav) => rol in it.roles
  }

  /** `NAV_ITEMS.filter(item => item.roles.includes(rol))` */
  function ItemsVisibles(rol: Rol): (r: seq<ItemNav>)
    ensures forall it :: it in r <==> it in NavItems && rol in it.roles
  {
    Filtrar(NavItems, VePor(rol))
  }

  /** The visible entries keep the order of `NAV_ITEMS`. */
  lemma VisiblesEnOrden(rol: Rol)
    ensures Subsecuencia(ItemsVisibles(rol), NavItems)
  {
    FiltrarEnOrden(NavItems, VePor(rol));
  }

  /** An administrator sees all nine entries, in their order. */
  lemma AdministradorVeTodo()
    ensures ItemsVisibles(Administrador) == NavItems
  {
    var p := VePor(Administrador);
    forall i | 0 <= i < |NavItems|
      ensures p(NavItems[i])
    {
      assert Administrador in NavItems[i].roles;
    }
    FiltrarTodos(NavItems, p);
  }

  /** Filtering nine entries of which only the first, second and fifth pass. */
  lemma FiltrarPrimeraSegundaQuinta<T>(s: seq<T>, p: T -> bool)
    requires |s| == 9
    requires forall i :: 0 <= i < 9 ==> (p(s[i]) <==> i == 0 || i == 1 || i == 4)
    ensures Filtrar(s, p) == [s[0], s[1], s[4]]
  {
    assert Filtrar(s[4..], p) == [s[4]] by {
      forall i | 0 <= i < |s[4..]|
        ensures p(s[4..][i]) <==> i < 1
      {
        assert s[4..][i] == s[i + 4];
      }
      FiltrarPrefijo(s[4..], p, 1);
    }
    assert Filtrar(s[2..], p) == [s[4]] by {
      FiltrarDesde(s, 3, p);
      FiltrarDesde(s, 2, p);
    }
    FiltrarDesde(s, 1, p);
    FiltrarDesde(s, 0, p);
    assert s[0..] == s;
  }

  /** A read-only user sees exactly Alertas, Alquileres and Catálogo. */
  lemma SoloLecturaVeTres()
    ensures ItemsVisibles(SoloLectura) == [NavItems[0], NavItems[1], NavItems[4]]
  {
    var p := VePor(SoloLectura);
    forall i | 0 <= i < 9
      ensures p(NavItems[i]) <==> i == 0 || i == 1 || i == 4
    {
      assert p(NavItems[i]) == (SoloLectura in NavItems[i].roles);
    }
    FiltrarPrimeraSegundaQuinta(NavItems, p);
  }

  /** An operator sees the first six entries. */
  lemma OperadorVeSeis()
    ensures ItemsVisibles(Operador) == NavItems[..6]
  {
    var p := VePor(Operador);
    forall i | 0 <= i < |NavItems|
      ensures p(NavItems[i]) <==> i < 6
    {
      assert p(NavItems[i]) == (Operador in NavItems[i].roles);
    }
    FiltrarPrefijo(NavItems, p, 6);
  }

  /** Neither an operator nor a read-only user sees any of the last three
      entries (Proveedores, Reportes, Usuarios). */
  lemma SinPaginasDeAdministrador(rol: Rol, it: ItemNav)
    requires rol != Administrador && it in ItemsVisibles(rol)
    ensures it in NavItems[..6]
  {
    if rol == Operador {
      OperadorVeSeis();
    } else {
      SoloLecturaVeTres();
      assert NavItems[..6][0] == NavItems[0] && NavItems[..6][1] == NavItems[1] && NavItems[..6][4] == NavItems[4];
    }
  }

  // ---- Effective role and title ------------------------------------------------------

  /** A `perfiles` row; the role column may be null. */
  datatype Perfil = Perfil(nombre: string, rol: Option<Rol>)

  /** `perfil?.rol ?? 'administrador'` */
  function RolEfectivo(perfil: Option<Perfil>): (r: Rol)
    ensures perfil.Some? && perfil.value.rol.Some? ==> r == perfil.value.rol.value
    ensures perfil.None? || perfil.value.rol.None? ==> r == Administrador
  {
    match perfil
    case None => Administrador
    case Some(p) => p.rol.GetOr(Administrador)
  }

  /** Without a profile, or without a role in it, the sidebar fails open: the
      user gets every entry, the administrator's pages included. */
  lemma SinPerfilVeTodo(perfil: Option<Perfil>)
    requires perfil.None? || perfil.value.rol.None?
    ensures ItemsVisibles(RolEfectivo(perfil)) == NavItems
  {
    AdministradorVeTodo();
  }

  /** The top bar's title: the label of the visible entry for the current
      route, otherwise `'Dashboard'`. */
  function Titulo(rol: Rol, ruta: string): (t: string)
    ensures t == "Dashboard" || exists it :: it in NavItems && rol in it.roles && it.href == ruta && t == it.etiqueta
  {
    var visibles := ItemsVisibles(rol);
    match BuscarPrimero(visibles, (it: ItemNav) => it.href == ruta)
    case Some(k) => assert visibles[k] in visibles; visibles[k].etiqueta
    case None => "Dashboard"
  }

  /** No two entries share a route. */
  lemma RutasDistintas()
    ensures forall i, j :: 0 <= i < j < |NavItems| ==> NavItems[i].href != NavItems[j].href
  {
  }

  /** On the route of an entry the role sees, the title is that entry's label;
      on the route of an entry it does not see, the title is `'Dashboard'`. */
  lemma TituloDeLaRuta(rol: Rol, i: nat)
    requires i < |NavItems|
    ensures rol in NavItems[i].roles ==> Titulo(rol, NavItems[i].href) == NavItems[i].etiqueta
    ensures rol !in NavItems[i].roles ==> Titulo(rol, NavItems[i].href) == "Dashboard"
  {
    var visibles := ItemsVisibles(rol);
    var ruta := NavItems[i].href;
    var p := (it: ItemNav) => it.href == ruta;
    var b := BuscarPrimero(visibles, p);
    RutasDistintas();
    if rol in NavItems[i].roles {
      assert NavItems[i] in visibles;
      var k :| 0 <= k < |visibles| && visibles[k] == NavItems[i];
      assert p(visibles[k]);
      assert b.Some?;
      assert visibles[b.value] in NavItems;
      var j :| 0 <= j < |NavItems| && NavItems[j] == visibles[b.value];
      assert j == i;
    } else {
      forall k | 0 <= k < |visibles|
        ensures !p(visibles[k])
      {
        assert visibles[k] in NavItems;
        var j :| 0 <= j < |NavItems| && NavItems[j] == visibles[k];
        assert j != i;
      }
      assert b.None?;
    }
  }

  // ---- Session check ----------------------------------------------------------------

  /** The authenticated user as `auth.getUser` returns it. */
  datatype Usuario = Usuario(id: string, email: Option<string>)

  /** `s.split('@')[0]`: the text before the first '@', or all of s. */
  function AntesDeArroba(s: string): (r: string)
    ensures |r| <= |s| && s[..|r|] == r
    ensures forall i :: 0 <= i < |r| ==> r[i] != '@'
    ensures |r| < |s| ==> s[|r|] == '@'
  {
    if s == [] || s[0] == '@' then [] else [s[0]] + AntesDeArroba(s[1..])
  }

  /** The local part of an address is what the split gives back. */
  lemma {:induction false} AntesDeArrobaDeCorreo(local: string, dominio: string)
    requires forall i :: 0 <= i < |local| ==> local[i] != '@'
    ensures AntesDeArroba(local + "@" + dominio) == local
  {
    if local != [] {
      assert (local + "@" + dominio)[1..] == local[1..] + "@" + dominio;
      AntesDeArrobaDeCorreo(local[1..], dominio);
    }
  }

  /** `currentUser.email?.split('@')[0] || 'Usuario'` */
  function NombrePorDefecto(email: Option<string>): (n: string)
    ensures n != ""
    ensures email.Some? && AntesDeArroba(email.value) != "" ==> n == AntesDeArroba(email.value)
  {
    match email
    case None => "Usuario"
    case Some(e) => if AntesDeArroba(e) == "" then "Usuario" else AntesDeArroba(e)
  }

  /** The layout's session state. */
  class Sesion {
    var usuario: Option<Usuario>
    var perfil: Option<Perfil>
    var cargando: bool
    var destino: Option<string>

    constructor()
      ensures usuario.None? && perfil.None? && cargando && destino.None?
    {
      usuario := None;
      perfil := None;
      cargando := true;
      destino := None;
    }

    /** `checkAuth`: `actual` is what `auth.getUser` returns and `fila` the
        `perfiles` row found for that user. Without a user the page goes to
        the login and stays loading; without a row the profile is made up
        with the administrator role. */
    method ComprobarSesion(actual: Option<Usuario>, fila: Option<Perfil>)
      modifies this
      ensures actual.None? ==>
        destino == Some("/login") && usuario == old(usuario) && perfil == old(perfil) && cargando == old(cargando)
      ensures actual.Some? ==> usuario == actual && !cargando && destino == old(destino)
      ensures actual.Some? && fila.Some? ==> perfil == fila
      ensures actual.Some? && fila.None? ==>
        perfil == Some(Perfil(NombrePorDefecto(actual.value.email), Some(Administrador)))
    {
      if actual.None? {
        destino := Some("/login");
        return;
      }
      usuario := actual;
      if fila.Some? {
        perfil := fila;
      } else {
        perfil := Some(Perfil(NombrePorDefecto(actual.value.email), Some(Administrador)));
      }
      cargando := false;
    }

    /** The role the sidebar and the badge use. */
    function Rol(): Rol
      reads this
    {
      RolEfectivo(perfil)
    }
  }

  /** A signed-in user with no profile row is treated as an administrator. */
  lemma UsuarioSinPerfilEsAdministrador(email: Option<string>)
    ensures RolEfectivo(Some(Perfil(NombrePorDefecto(email), Some(Administrador)))) == Administrador
    ensures ItemsVisibles(RolEfectivo(Some(Perfil(NombrePorDefecto(email), Some(Administrador))))) == NavItems
  {
    AdministradorVeTodo();
  }
}
