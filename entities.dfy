/** The employee record as the roster endpoints return it. */
module Entities {
  datatype Employee = Employee(
    id: string,
    name: string,
    email: string,
    role: string,
    salary: int,
    createdAt: string)
}
