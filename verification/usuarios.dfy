/**
 * Users and their role set. `base/models.py`, `backend/models.py` and
 * `jumbo_soft/models.py` carry the same role code (flags computed at load
 * time, add, remove, update from the `es<Rol>` request flags, admin
 * operations); it is modelled once here. The members that differ between
 * the three files are separate methods: `AgregarRolComensal` (base, raises),
 * `AgregarRolComensalMensaje` (jumbo_soft, returns a message) and
 * `AgregarRoles` (backend).
 */
module Usuarios {
  import opened Comun

  const ROOT := "root"
  const MOZO := "mozo"
  const COMENSAL := "comensal"
  const VENDEDOR := "vendedor"
  const ADMINISTRADOR := "admin"

  /** A row of the role table. */
  datatype Rol = Rol(id: int, nombre: string)

  /** The three ways `agregar_rol` accepts its argument. */
  datatype ArgRol = PorNombre(nombre: string) | PorRol(rol: Rol) | PorId(id: int)

  /** One entry of the admin menu. */
  datatype Operacion = Operacion(rol: string, ruta: string, titulo: string, descripcion: string)

  /**
   * A stored password: none yet, the hash `make_password(texto)`, or the
   * unusable password `make_password(None)` gives.
   */
  datatype Clave = SinClave | Hash(texto: string) | Inutilizable

  /**
   * The role table `Rol.objects`, looked up by name: every entry is stored
   * under its own name and no two entries share an id.
   */
  ghost predicate TablaValida(tabla: map<string, Rol>)
  {
    && (forall n :: n in tabla ==> tabla[n].nombre == n)
    && (forall n, m :: n in tabla && m in tabla && tabla[n].id == tabla[m].id ==> n == m)
  }

  /**
   * What `actualizar_rol` leaves of the roles named `rol`, going from role
   * set `antes` to `despues`, for the request flag `es<Rol>`: a truthy flag
   * means the table's role is held, a flag that is exactly `False` means no
   * role of that name is held, and any other flag changes nothing.
   */
  ghost predicate SegunBandera(datos: map<string, PyValor>, rol: string, tabla: map<string, Rol>, antes: set<Rol>, despues: set<Rol>)
  {
    var v := Obtener(datos, "es" + Capitalizar(rol));
    && (Verdadero(v) ==> rol in tabla && tabla[rol] in despues)
    && (v == PyBool(false) ==> forall x :: x in despues ==> x.nombre != rol)
    && (!Verdadero(v) && v != PyBool(false) ==> forall x: Rol :: x.nombre == rol ==> (x in despues <==> x in antes))
  }

  /**
   * What `actualizar_roles` leaves: the mozo, comensal and vendedor roles
   * each as their flag says, and every other role as it was.
   */
  ghost predicate RolesSegunBanderas(datos: map<string, PyValor>, tabla: map<string, Rol>, antes: set<Rol>, despues: set<Rol>)
  {
    && SegunBandera(datos, MOZO, tabla, antes, despues)
    && SegunBandera(datos, COMENSAL, tabla, antes, despues)
    && SegunBandera(datos, VENDEDOR, tabla, antes, despues)
    && (forall x: Rol :: x.nombre != MOZO && x.nombre != COMENSAL && x.nombre != VENDEDOR ==> (x in despues <==> x in antes))
  }

  /** A later step that leaves the roles named `rol` alone keeps what the flag of `rol` did. */
  lemma SegunBanderaSigue(datos: map<string, PyValor>, rol: string, tabla: map<string, Rol>, a: set<Rol>, b: set<Rol>, c: set<Rol>)
    requires TablaValida(tabla) && SegunBandera(datos, rol, tabla, a, b)
    requires forall x: Rol :: x.nombre == rol ==> (x in c <==> x in b)
    ensures SegunBandera(datos, rol, tabla, a, c)
  {
  }

  const MENSAJE_ROL_INEXISTENTE := "Rol matching query does not exist."
  const MENSAJE_ROL_NO_ENCONTRADO := "No se ha encontrado el rol."
  const MENSAJE_SIN_COMENSAL := "No se ha podido crear el usuario con rol comensal."

  /** The three admin operations, in the order the source lists them. */
  const OPERACIONES_ADMIN: seq<Operacion> := [
    Operacion(ADMINISTRADOR, "/productos/listar/admin", "Productos", "Permite gestionar los productos del sistema"),
    Operacion(ADMINISTRADOR, "/usuarios/listar", "Usuarios", "Permite gestionar los usuarios del sistema"),
    Operacion(ADMINISTRADOR, "/compras", "Ingreso", "Permite ingresar mercadería")
  ]

  class Usuario {
    var id: Option<nat>
    var nombre: string
    var roles: set<Rol>
    var esMozo: bool
    var esAdmin: bool
    var esComensal: bool
    var esVendedor: bool
    var operaciones: seq<Operacion>
    var habilitado: bool
    var observaciones: string
    var borrado: bool
    var password: Clave
    var tokenReset: Option<string>
    var fechaTokenReset: Option<int>

    /** Every role the user holds is the table's row of that name. */
    ghost predicate RolesEnTabla(tabla: map<string, Rol>)
      reads this
    {
      forall r :: r in roles ==> r.nombre in tabla && tabla[r.nombre] == r
    }

    /** No two roles of the user share a name. */
    ghost predicate NombresUnicos()
      reads this
    {
      forall a, b :: a in roles && b in roles && a.nombre == b.nombre ==> a == b
    }

    lemma RolesEnTablaSinDuplicados(tabla: map<string, Rol>)
      requires TablaValida(tabla) && RolesEnTabla(tabla)
      ensures NombresUnicos()
      ensures forall a, b :: a in roles && b in roles && a.id == b.id ==> a == b
    {
    }

    /** `comprobar_tiene_rol(nombre)`. */
    function TieneRol(nombre: string): (r: bool)
      reads this`roles
      ensures r <==> nombre in (set x | x in roles :: x.nombre)
    {
      exists r :: r in roles && r.nombre == nombre
    }

    predicate TieneRolId(id: int)
      reads this`roles
    {
      exists r :: r in roles && r.id == id
    }

    /**
     * `get_operaciones_admin`: nothing unless the user is an admin, and then
     * exactly the three admin entries. For a non-admin the source returns
     * an empty `dict()` rather than a list; both are an empty collection,
     * written here as `[]`.
     */
    function GetOperacionesAdmin(): (r: seq<Operacion>)
      reads this`esAdmin
      ensures !esAdmin ==> r == []
      ensures esAdmin ==> |r| == 3 && forall i :: 0 <= i < |r| ==> r[i].rol == ADMINISTRADOR
      ensures esAdmin ==> r[0].ruta != r[1].ruta && r[1].ruta != r[2].ruta && r[0].ruta != r[2].ruta
    {
      if !esAdmin then [] else OPERACIONES_ADMIN
    }

    /**
     * Loading a user: when it has an id, each flag is membership of the
     * matching role and `operaciones` is the admin menu; otherwise every
     * flag stays false.
     */
    constructor (id: Option<nat>, nombre: string, roles: set<Rol>)
      ensures this.id == id && this.nombre == nombre && this.roles == roles
      ensures id.Some? ==> esMozo == TieneRol(MOZO) && esAdmin == TieneRol(ADMINISTRADOR)
      ensures id.Some? ==> esComensal == TieneRol(COMENSAL) && esVendedor == TieneRol(VENDEDOR)
      ensures id.Some? ==> operaciones == GetOperacionesAdmin()
      ensures id.None? ==> !esMozo && !esAdmin && !esComensal && !esVendedor && operaciones == []
      ensures !habilitado && observaciones == "" && !borrado && password == SinClave
      ensures tokenReset == None && fechaTokenReset == None
    {
      this.id := id;
      this.nombre := nombre;
      this.roles := roles;
      habilitado := false;
      observaciones := "";
      borrado := false;
      password := SinClave;
      tokenReset := None;
      fechaTokenReset := None;
      esMozo := false;
      esAdmin := false;
      esComensal := false;
      esVendedor := false;
      operaciones := [];
      new;
      if id.Some? {
        esMozo, esAdmin := TieneRol(MOZO), TieneRol(ADMINISTRADOR);
        esComensal, esVendedor := TieneRol(COMENSAL), TieneRol(VENDEDOR);
        operaciones := GetOperacionesAdmin();
      }
    }

    /**
     * `agregar_rol(rol)`. A name is looked up in the table (an unknown name
     * raises, even when nothing would be added); a Rol object is added as
     * is; a bare id is looked for but never added, because it is not a Rol.
     * A role already held is not added again.
     */
    method AgregarRol(arg: ArgRol, tabla: map<string, Rol>) returns (r: Outcome<string>)
      requires TablaValida(tabla) && RolesEnTabla(tabla)
      requires arg.PorRol? ==> arg.rol.nombre in tabla && tabla[arg.rol.nombre] == arg.rol
      modifies this`roles
      ensures RolesEnTabla(tabla)
      ensures arg.PorNombre? && arg.nombre !in tabla ==> r == Fail(MENSAJE_ROL_INEXISTENTE) && roles == old(roles)
      ensures arg.PorNombre? && arg.nombre in tabla ==> r == Pass && roles == old(roles) + {tabla[arg.nombre]}
      ensures arg.PorRol? ==> r == Pass && roles == old(roles) + {arg.rol}
      ensures arg.PorId? ==> r == Pass && roles == old(roles)
    {
      RolesEnTablaSinDuplicados(tabla);
      r := Pass;
      match arg
      case PorNombre(n) =>
        var existe := TieneRol(n);
        if n !in tabla {
          r := Fail(MENSAJE_ROL_INEXISTENTE);
          return;
        }
        if !existe {
          roles := roles + {tabla[n]};
        }
      case PorRol(x) =>
        var existe := TieneRolId(x.id);
        if !existe {
          roles := roles + {x};
        }
      case PorId(i) =>
        var existe := TieneRolId(i);
    }

    /** `quitar_rol(nombre)`: the role of that name goes, if it is held. */
    method QuitarRol(nombre: string)
      requires NombresUnicos()
      modifies this`roles
      ensures NombresUnicos()
      ensures roles == set r | r in old(roles) && r.nombre != nombre
      ensures !TieneRol(nombre)
    {
      if existe :| existe in roles && existe.nombre == nombre {
        roles := roles - {existe};
      }
    }

    /**
     * `actualizar_rol(usuario, rol)`: reads the request flag `es<Rol>`; a
     * truthy flag adds the role when missing, a flag that is exactly
     * `False` removes it when held, and anything else (absent, `None`,
     * `0`, `""`) leaves the roles alone.
     */
    method ActualizarRol(datos: map<string, PyValor>, rol: string, tabla: map<string, Rol>) returns (r: Outcome<string>)
      requires TablaValida(tabla) && RolesEnTabla(tabla)
      modifies this`roles
      ensures RolesEnTabla(tabla)
      ensures var v := Obtener(datos, "es" + Capitalizar(rol));
        && (Verdadero(v) && rol in tabla ==> r == Pass && roles == old(roles) + {tabla[rol]})
        && (Verdadero(v) && rol !in tabla ==> r == Fail(MENSAJE_ROL_INEXISTENTE) && roles == old(roles))
        && (v == PyBool(false) ==> r == Pass && roles == set x | x in old(roles) && x.nombre != rol)
        && (!Verdadero(v) && v != PyBool(false) ==> r == Pass && roles == old(roles))
      ensures r == Pass ==> SegunBandera(datos, rol, tabla, old(roles), roles)
      ensures forall x: Rol :: x.nombre != rol ==> (x in roles <==> x in old(roles))
    {
      RolesEnTablaSinDuplicados(tabla);
      var clave := "es" + Capitalizar(rol);
      var agregar := Obtener(datos, clave);
      var tiene := TieneRol(rol);
      if Verdadero(agregar) && !tiene {
        r := AgregarRol(PorNombre(rol), tabla);
      } else if agregar == PyBool(false) && tiene {
        QuitarRol(rol);
        r := Pass;
      } else {
        r := Pass;
        if agregar == PyBool(false) {
          assert roles == set x | x in old(roles) && x.nombre != rol;
        }
      }
    }

    /**
     * `actualizar_roles(usuario)`: `actualizar_rol` for mozo, comensal and
     * vendedor, in that order. The admin and root roles are never touched.
     */
    method ActualizarRoles(datos: map<string, PyValor>, tabla: map<string, Rol>) returns (r: Outcome<string>)
      requires TablaValida(tabla) && RolesEnTabla(tabla)
      modifies this`roles
      ensures RolesEnTabla(tabla)
      ensures forall x: Rol :: x.nombre != MOZO && x.nombre != COMENSAL && x.nombre != VENDEDOR ==>
        (x in roles <==> x in old(roles))
      ensures MOZO in tabla && COMENSAL in tabla && VENDEDOR in tabla ==> r == Pass
      ensures r.Fail? ==> r.error == MENSAJE_ROL_INEXISTENTE
      ensures r == Pass ==> RolesSegunBanderas(datos, tabla, old(roles), roles)
    {
      ghost var antes := roles;
      r := ActualizarRol(datos, MOZO, tabla);
      if r.Fail? { return; }
      ghost var trasMozo := roles;
      r := ActualizarRol(datos, COMENSAL, tabla);
      if r.Fail? { return; }
      ghost var trasComensal := roles;
      r := ActualizarRol(datos, VENDEDOR, tabla);
      if r == Pass {
        SegunBanderaSigue(datos, MOZO, tabla, antes, trasMozo, trasComensal);
        SegunBanderaSigue(datos, MOZO, tabla, antes, trasComensal, roles);
        SegunBanderaSigue(datos, COMENSAL, tabla, trasMozo, trasComensal, roles);
        assert SegunBandera(datos, COMENSAL, tabla, antes, roles);
      }
    }

    /**
     * `agregar_rol_comensal` of base/models.py: adds the comensal role, and
     * raises when the table has no such role.
     */
    method AgregarRolComensal(tabla: map<string, Rol>) returns (r: Outcome<string>)
      requires TablaValida(tabla) && RolesEnTabla(tabla)
      modifies this`roles
      ensures RolesEnTabla(tabla)
      ensures COMENSAL !in tabla ==> r == Fail(MENSAJE_SIN_COMENSAL) && roles == old(roles)
      ensures COMENSAL in tabla ==> r == Pass && roles == old(roles) + {tabla[COMENSAL]} && TieneRol(COMENSAL)
    {
      if COMENSAL in tabla {
        r := AgregarRol(PorRol(tabla[COMENSAL]), tabla);
        assert tabla[COMENSAL] in roles;
      } else {
        r := Fail(MENSAJE_SIN_COMENSAL);
      }
    }

    /**
     * `agregar_rol_comensal` of jumbo_soft/models.py: the same, but reports
     * the failure as a message instead of raising ("" on success).
     */
    method AgregarRolComensalMensaje(tabla: map<string, Rol>) returns (mensaje: string)
      requires TablaValida(tabla) && RolesEnTabla(tabla)
      modifies this`roles
      ensures RolesEnTabla(tabla)
      ensures COMENSAL !in tabla ==> mensaje == "No se ha podido agregar el rol " + COMENSAL && roles == old(roles)
      ensures COMENSAL in tabla ==> mensaje == "" && roles == old(roles) + {tabla[COMENSAL]}
    {
      if COMENSAL in tabla {
        var _ := AgregarRol(PorRol(tabla[COMENSAL]), tabla);
        mensaje := "";
      } else {
        mensaje := "No se ha podido agregar el rol " + COMENSAL;
      }
    }

    /**
     * `agregar_roles(roles)` of backend/models.py: adds the named roles in
     * order; the first unknown name raises and the roles added before it
     * stay added.
     */
    method AgregarRoles(nombres: seq<string>, tabla: map<string, Rol>) returns (r: Outcome<string>)
      requires TablaValida(tabla) && RolesEnTabla(tabla)
      modifies this`roles
      ensures RolesEnTabla(tabla)
      ensures r.Pass? <==> forall i :: 0 <= i < |nombres| ==> nombres[i] in tabla
      ensures r.Pass? ==> roles == old(roles) + set i | 0 <= i < |nombres| :: tabla[nombres[i]]
      ensures r.Fail? ==> r.error == MENSAJE_ROL_NO_ENCONTRADO && exists k ::
        && 0 <= k < |nombres| && nombres[k] !in tabla
        && (forall i :: 0 <= i < k ==> nombres[i] in tabla)
        && roles == old(roles) + set i | 0 <= i < k :: tabla[nombres[i]]
    {
      var k := 0;
      while k < |nombres|
        invariant 0 <= k <= |nombres|
        invariant RolesEnTabla(tabla)
        invariant forall i :: 0 <= i < k ==> nombres[i] in tabla
        invariant roles == old(roles) + set i | 0 <= i < k :: tabla[nombres[i]]
      {
        if nombres[k] !in tabla {
          return Fail(MENSAJE_ROL_NO_ENCONTRADO);
        }
        var _ := AgregarRol(PorRol(tabla[nombres[k]]), tabla);
        assert (set i | 0 <= i < k + 1 :: tabla[nombres[i]]) == (set i | 0 <= i < k :: tabla[nombres[i]]) + {tabla[nombres[k]]};
        k := k + 1;
      }
      r := Pass;
    }
  }

  /**
   * Django's model equality (`==` on two users): two handles are the same
   * user when they carry the same primary key; a user without one equals
   * only itself.
   */
  function MismoUsuario(a: Usuario, b: Usuario): (r: bool)
    reads a`id, b`id
    ensures r <==> a == b || (a.id.Some? && a.id == b.id)
    ensures r ==> a.id == b.id
  {
    if a.id.None? then a == b else a.id == b.id
  }

  /** Model equality does not depend on the order of the two handles. */
  lemma MismoUsuarioSimetrico(a: Usuario, b: Usuario)
    ensures MismoUsuario(a, b) == MismoUsuario(b, a)
  {
  }
}
