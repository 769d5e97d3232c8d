/**
 * What a data module (leads or call logs) shows in place of its content:
 * the denial box of the permission gate, the loading placeholder
 * (src/components/Common/LoadingState.jsx), the empty placeholder
 * (src/components/Common/EmptyState.jsx), or the table of rows.
 */
module RenderStates {

  datatype RenderState<T> =
    | Denied(notice: string)
    | Loading
    | Empty
    | Populated(rows: seq<T>)
}
