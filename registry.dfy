/** The data-access libraries the benchmarks compare, by the name each is registered under. */
module Registry {

  /** The keys of the ORM registry; `OrchidOrm` is registered as 'orchid-orm'. */
  datatype OrmName =
    | Sequelize | Typeorm | Knex | Prisma | Objection | Mikroorm | DrizzleOrm | SqlRaw | OrchidOrm
}
