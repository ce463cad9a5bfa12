/**
 * The portal's entities (src/lib/definitions.ts). Dates (`createdAt`, `plazo`,
 * `uploadedAt`) are not part of this model.
 */
module Definitions {
  import opened Wrappers

  datatype UserRole = Administrador | Investigador | Comunidad

  datatype User = User(
    id: string,
    email: string,
    nombre: string,
    apellidos: string,
    organizacion: Option<string>,
    role: UserRole,
    isActive: bool)

  /** The four project states; any state may follow any other. */
  datatype ProjectStatus = Propuesto | EnCurso | Finalizado | Cancelado

  /** The literal each state is written as in a form or a record. */
  function StatusCode(s: ProjectStatus): string {
    match s
    case Propuesto => "PROPUESTO"
    case EnCurso => "EN_CURSO"
    case Finalizado => "FINALIZADO"
    case Cancelado => "CANCELADO"
  }

  /**
   * File metadata. `relatedType` is kept as the string the data carries: the
   * declared kind is "PROJECT" | "PRODUCT", but the seed data writes
   * "PROYECTO" and "PRODUCTO".
   */
  datatype Attachment = Attachment(
    id: string,
    filename: string,
    originalName: string,
    mimeType: string,
    size: nat,
    url: string,
    relatedId: string,
    relatedType: string)

  /** A derived product; `productType` is a product-type code such as "ART_OPEN_A1". */
  datatype Product = Product(
    id: string,
    titulo: string,
    descripcion: string,
    productType: string,
    projectId: string,
    isPublic: bool,
    attachments: seq<Attachment>,
    imageId: string)

  /** A research project with its products, attachments and latest AI assessment. */
  datatype Project = Project(
    id: string,
    titulo: string,
    resumen: string,
    presupuesto: Option<real>,
    estado: ProjectStatus,
    entidadProponente: string,
    isPublic: bool,
    leadInvestigatorId: string,
    leadInvestigator: User,
    collaborators: seq<User>,
    products: seq<Product>,
    attachments: seq<Attachment>,
    description: Option<string>,
    imageId: string,
    aiScore: Option<real>,
    aiSummary: Option<string>,
    aiRationale: Option<string>,
    aiRecommendations: Option<string>)
}
