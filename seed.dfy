/** The fixed data the application starts from (constants.ts). */
module Seed {
  import opened Wrappers
  import opened Types

  /** Centre of Iquique, Chile: the default location of a new report. */
  const IquiqueCenter := GeoPoint(-20.2139, -70.1525)

  /** The user a simulated login signs in. */
  const MockUser := User("12345abcde", Some("Marc Ewin"), Some("marc.ewin@example.com"),
                         Some("https://picsum.photos/id/237/100/100"))

  const Post1 := PetPost("post_1", Lost, "user_a", "Ana", "https://picsum.photos/id/1025/400/300",
    "Pug", "Beige con máscara negra", "Pequeño",
    "Se llama Pipo, es muy amigable pero se asusta con los ruidos fuertes. Llevaba un collar azul.",
    GeoPoint(-20.220, -70.145), 1721383200000)

  const Post2 := PetPost("post_2", Found, "user_b", "Carlos", "https://picsum.photos/id/219/400/300",
    "Mestizo", "Naranjo atigrado", "Mediano",
    "Gato muy dócil encontrado cerca del supermercado. Parece bien cuidado, debe tener familia.",
    GeoPoint(-20.235, -70.138), 1721489400000)

  const Post3 := PetPost("post_3", Lost, "user_c", "Maria", "https://picsum.photos/id/1062/400/300",
    "Labrador Retriever", "Dorado", "Grande",
    "Responde al nombre de Max. Se perdió en la playa Cavancha. Es muy juguetón y tiene una pequeña cicatriz en la oreja derecha.",
    GeoPoint(-20.246, -70.149), 1721462400000)

  const Post4 := PetPost("post_4", Found, "user_d", "Javier", "https://picsum.photos/id/1025/400/300",
    "Pug", "Crema", "Pequeño",
    "Encontré este perrito asustado en el parque. Tenía un collar azul pero sin placa. Muy amistoso.",
    GeoPoint(-20.222, -70.146), 1721412000000)

  /** The reports the store is seeded with when the application mounts. */
  const MockPosts: seq<PetPost> := [Post1, Post2, Post3, Post4]
}
